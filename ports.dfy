/**
 * Serial port lists as the monitors see them: `(device, description)` pairs
 * from the operating system's enumeration, keyword classification of the
 * description, and the sort by `(rank, device)` that puts likely Arduino
 * boards first.
 */
module Ports {
  import opened Text
  import opened Samples

  /** One entry of `serial.tools.list_ports.comports()`. */
  datatype SerialPort = SerialPort(device: string, description: string)

  /** What a port's description says it is. */
  datatype PortKind = Arduino | UsbSerial | UsbDevice | Bluetooth | Unknown

  const BoardKeywords: seq<string> := ["ARDUINO", "UNO", "NANO", "MEGA"]
  const BridgeKeywords: seq<string> := ["CH340", "CH341", "FTDI", "CP210"]

  /** A sort key: Python's tuple `(rank, name)`, compared field by field. */
  datatype Key = Key(rank: int, name: string)

  predicate KeyLe(a: Key, b: Key) {
    a.rank < b.rank || (a.rank == b.rank && StrLe(a.name, b.name))
  }

  lemma KeyLeTotal(a: Key, b: Key)
    ensures KeyLe(a, b) || KeyLe(b, a)
  {
    StrLeTotal(a.name, b.name);
  }

  lemma KeyLeTransitive(a: Key, b: Key, c: Key)
    requires KeyLe(a, b) && KeyLe(b, c)
    ensures KeyLe(a, c)
  {
    if a.rank == b.rank && b.rank == c.rank {
      StrLeTransitive(a.name, b.name, c.name);
    }
  }

  predicate SortedBy<T>(s: seq<T>, key: T -> Key) {
    forall i, j :: 0 <= i < j < |s| ==> KeyLe(key(s[i]), key(s[j]))
  }

  /** `s` with `x` placed after every element whose key is not above its own. */
  function Insert<T>(s: seq<T>, x: T, key: T -> Key): (r: seq<T>)
    ensures multiset(r) == multiset(s) + multiset{x}
    ensures |r| == |s| + 1
  {
    if s == [] then [x]
    else if KeyLe(key(s[|s| - 1]), key(x)) then s + [x]
    else
      assert s == s[..|s| - 1] + [s[|s| - 1]];
      Insert(s[..|s| - 1], x, key) + [s[|s| - 1]]
  }

  /** Every element of `s`, and `x`, has a key at or below `top`. */
  predicate AllAtMost<T>(s: seq<T>, key: T -> Key, top: Key) {
    forall i :: 0 <= i < |s| ==> KeyLe(key(s[i]), top)
  }

  lemma {:induction false} InsertAtMost<T>(s: seq<T>, x: T, key: T -> Key, top: Key)
    requires AllAtMost(s, key, top) && KeyLe(key(x), top)
    ensures AllAtMost(Insert(s, x, key), key, top)
    decreases |s|
  {
    if s != [] && !KeyLe(key(s[|s| - 1]), key(x)) {
      InsertAtMost(s[..|s| - 1], x, key, top);
    }
  }

  /** Inserting into a sorted list keeps it sorted. */
  lemma {:induction false} InsertSorted<T>(s: seq<T>, x: T, key: T -> Key)
    requires SortedBy(s, key)
    ensures SortedBy(Insert(s, x, key), key)
    decreases |s|
  {
    if s == [] {
    } else if KeyLe(key(s[|s| - 1]), key(x)) {
      var r := s + [x];
      forall i, j | 0 <= i < j < |r|
        ensures KeyLe(key(r[i]), key(r[j]))
      {
        if j == |s| && i < |s| - 1 {
          KeyLeTransitive(key(s[i]), key(s[|s| - 1]), key(x));
        }
      }
    } else {
      var init, last := s[..|s| - 1], s[|s| - 1];
      assert SortedBy(init, key);
      InsertSorted(init, x, key);
      KeyLeTotal(key(last), key(x));
      assert AllAtMost(init, key, key(last));
      InsertAtMost(init, x, key, key(last));
      var m := Insert(init, x, key);
      assert AllAtMost(m, key, key(last));
      var r := m + [last];
      assert forall i, j :: 0 <= i < j < |r| ==> KeyLe(key(r[i]), key(r[j])) by {
        forall i, j | 0 <= i < j < |r|
          ensures KeyLe(key(r[i]), key(r[j]))
        {
          if j < |m| {
            assert r[i] == m[i] && r[j] == m[j];
          }
        }
      }
    }
  }

  /** Python's `sorted(s, key=key)`: ordered by key, same elements. */
  function SortBy<T>(s: seq<T>, key: T -> Key): (r: seq<T>)
    ensures SortedBy(r, key)
    ensures multiset(r) == multiset(s)
    ensures |r| == |s|
  {
    if s == [] then []
    else
      assert s == s[..|s| - 1] + [s[|s| - 1]];
      var t := SortBy(s[..|s| - 1], key);
      InsertSorted(t, s[|s| - 1], key);
      Insert(t, s[|s| - 1], key)
  }

  /** `[x for x in s if p(x)]` */
  function Filter<T>(s: seq<T>, p: T -> bool): (r: seq<T>)
    ensures |r| <= |s|
    ensures forall i :: 0 <= i < |r| ==> p(r[i])
  {
    if s == [] then []
    else
      var init := s[..|s| - 1];
      assert s == init + [s[|s| - 1]];
      Filter(init, p) + (if p(s[|s| - 1]) then [s[|s| - 1]] else [])
  }

  lemma FilterAppend<T>(a: seq<T>, b: seq<T>, p: T -> bool)
    ensures Filter(a + b, p) == Filter(a, p) + Filter(b, p)
    decreases |b|
  {
    if b == [] {
      assert a + b == a;
    } else {
      var init := b[..|b| - 1];
      assert a + b == (a + init) + [b[|b| - 1]];
      assert b == init + [b[|b| - 1]];
      FilterAppend(a, init, p);
    }
  }

  /** An element is kept exactly when it is in the list and passes. */
  lemma {:induction false} FilterMembers<T>(s: seq<T>, p: T -> bool, x: T)
    ensures x in Filter(s, p) <==> x in s && p(x)
    decreases |s|
  {
    if s != [] {
      var init := s[..|s| - 1];
      FilterMembers(init, p, x);
      assert s == init + [s[|s| - 1]];
    }
  }

  /**
   * The kept elements appear in their original order: they sit at strictly
   * increasing positions `idx` of `s`, which are exactly the positions that pass.
   */
  lemma {:induction false} FilterIsSubsequence<T>(s: seq<T>, p: T -> bool) returns (idx: seq<nat>)
    ensures |idx| == |Filter(s, p)|
    ensures forall i :: 0 <= i < |idx| ==> idx[i] < |s| && s[idx[i]] == Filter(s, p)[i]
    ensures forall i, j :: 0 <= i < j < |idx| ==> idx[i] < idx[j]
    ensures forall k :: 0 <= k < |s| ==> (k in idx <==> p(s[k]))
    decreases |s|
  {
    if s == [] {
      idx := [];
    } else {
      var init, x := s[..|s| - 1], s[|s| - 1];
      var prev := FilterIsSubsequence(init, p);
      idx := prev + if p(x) then [|s| - 1] else [];
    }
  }

  /** Filtering commutes with inserting an element into a sorted list, up to order. */
  lemma {:induction false} FilterInsert<T>(s: seq<T>, x: T, key: T -> Key, p: T -> bool)
    ensures multiset(Filter(Insert(s, x, key), p)) == multiset(Filter(s, p)) + multiset(Filter([x], p))
    decreases |s|
  {
    if s == [] {
    } else if KeyLe(key(s[|s| - 1]), key(x)) {
      assert Insert(s, x, key) == s + [x];
      FilterAppend(s, [x], p);
    } else {
      var init, last := s[..|s| - 1], s[|s| - 1];
      var m := Insert(init, x, key);
      assert Insert(s, x, key) == m + [last];
      FilterInsert(init, x, key, p);
      FilterAppend(m, [last], p);
      SplitLast(s);
      FilterAppend(init, [last], p);
      MultisetRegroup(Filter(m, p), Filter(init, p), Filter([x], p), Filter([last], p));
    }
  }

  lemma MultisetRegroup<T>(m: seq<T>, a: seq<T>, x: seq<T>, l: seq<T>)
    requires multiset(m) == multiset(a) + multiset(x)
    ensures multiset(m + l) == multiset(a + l) + multiset(x)
  {
  }

  lemma MultisetChain<T>(x: seq<T>, y: seq<T>, z: seq<T>, w: seq<T>, v: seq<T>)
    requires multiset(x) == multiset(y) + multiset(z) && multiset(y) == multiset(w) && v == w + z
    ensures multiset(x) == multiset(v)
  {
  }

  /** Sorting keeps exactly the same elements that satisfy any test. */
  lemma {:induction false} FilterSortBy<T>(s: seq<T>, key: T -> Key, p: T -> bool)
    ensures multiset(Filter(SortBy(s, key), p)) == multiset(Filter(s, p))
    decreases |s|
  {
    if s != [] {
      var init, last := s[..|s| - 1], s[|s| - 1];
      var t := SortBy(init, key);
      assert SortBy(s, key) == Insert(t, last, key);
      FilterSortBy(init, key, p);
      FilterInsert(t, last, key, p);
      SplitLast(s);
      FilterAppend(init, [last], p);
      MultisetChain(Filter(SortBy(s, key), p), Filter(t, p), Filter([last], p), Filter(init, p), Filter(s, p));
    }
  }

  /** The index of the first element satisfying `p`, or `|s|` when there is none. */
  function FirstIndex<T>(s: seq<T>, p: T -> bool): (r: nat)
    ensures r <= |s|
    ensures forall k :: 0 <= k < r ==> !p(s[k])
    ensures r < |s| ==> p(s[r])
  {
    if s == [] then 0
    else if p(s[0]) then 0
    else 1 + FirstIndex(s[1..], p)
  }
}
