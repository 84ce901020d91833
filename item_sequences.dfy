/**
 * The ordered-array operations every item list shares: first-match lookup,
 * removal of one slot, the wrap-around position arithmetic and the cyclic
 * move that shifts the intervening elements in place.
 */
module ItemSequences {

  /** No element occurs twice. */
  predicate Distinct<T(==)>(s: seq<T>)
  {
    forall i, j :: 0 <= i < j < |s| ==> s[i] != s[j]
  }

  /** Appending an element not yet present keeps a sequence free of repeats. */
  lemma DistinctAppend<T>(s: seq<T>, x: T)
    requires Distinct(s) && x !in s
    ensures Distinct(s + [x])
  {
  }

  /** The first position holding `key`, or -1. */
  function PositionOf<K(==)>(keys: seq<K>, key: K): (r: int)
    ensures -1 <= r < |keys|
    ensures r == -1 <==> key !in keys
    ensures r != -1 ==> keys[r] == key && key !in keys[..r]
    decreases |keys|
  {
    if keys == [] then -1
    else if keys[0] == key then 0
    else
      var p := PositionOf(keys[1..], key);
      if p == -1 then -1
      else
        assert keys[..p + 1] == [keys[0]] + keys[1..][..p];
        p + 1
  }

  /**
   * The lookup loop of `getNamedItemPosition`, `getIndexedItemPosition` and
   * `getItemPosition`: scan while nothing is found.
   */
  method FindPosition<K(==)>(keys: seq<K>, key: K) returns (result: int)
    ensures result == PositionOf(keys, key)
  {
    result := -1;
    var position := 0;
    while result == -1 && position < |keys|
      invariant 0 <= position <= |keys|
      invariant result == -1 ==> key !in keys[..position]
      invariant result != -1 ==> 0 <= result < position && keys[result] == key && key !in keys[..result]
    {
      if keys[position] == key {
        result := position;
      }
      assert keys[..position + 1] == keys[..position] + [keys[position]];
      position := position + 1;
    }
    if result == -1 {
      assert keys[..position] == keys;
    }
  }

  /** `splice(position, 1)`: the array without the one slot. */
  function RemoveAt<T>(s: seq<T>, position: nat): (r: seq<T>)
    requires position < |s|
    ensures |r| == |s| - 1
    ensures forall i :: 0 <= i < position ==> r[i] == s[i]
    ensures forall i :: position <= i < |r| ==> r[i] == s[i + 1]
    ensures multiset(r) + multiset{s[position]} == multiset(s)
  {
    assert s == s[..position] + [s[position]] + s[position + 1..];
    s[..position] + s[position + 1..]
  }

  /** The remainder of JavaScript's `%`, which truncates toward zero. */
  function JsRemainder(a: int, n: int): (r: int)
    requires n > 0
    ensures -n < r < n
    ensures a >= 0 ==> r >= 0
    ensures a < 0 ==> r <= 0
    ensures (a - r) % n == 0
  {
    if a >= 0 then
      DivisionUnique(a - a % n, n, a / n, 0);
      a % n
    else
      var q := (-a) / n;
      assert a + (-a) % n == (-q) * n;
      DivisionUnique(a + (-a) % n, n, -q, 0);
      -((-a) % n)
  }

  /**
   * `shiftItemPosition`: -1 for an empty list, else the target
   * (`shift`, plus `position` when relative) taken modulo the length
   * and brought into [0, length), that is the floored modulo (Dafny's `%`
   * is Euclidean, which agrees with floored modulo for a positive divisor).
   */
  function ShiftPosition(length: nat, position: int, shift: int, relative: bool): (r: int)
    ensures r == -1 <==> length == 0
    ensures length > 0 ==> 0 <= r < length && r == (if relative then shift + position else shift) % length
  {
    if length == 0 then -1
    else
      var target := if relative then shift + position else shift;
      var result := JsRemainder(target, length);
      FlooredRemainder(target, length);
      if result < 0 then result + length else result
  }

  /** Euclidean division is unique: a quotient and remainder in [0, n) are Dafny's. */
  lemma DivisionUnique(a: int, n: int, q: int, r: int)
    requires n > 0 && 0 <= r < n && a == q * n + r
    ensures a % n == r && a / n == q
  {
    var q', r' := a / n, a % n;
    var d := q - q';
    assert d * n == q * n - q' * n;
    assert d * n == r' - r;
  }

  /** A negative truncating remainder, moved up by n, is the floored one. */
  lemma FlooredRemainder(a: int, n: int)
    requires n > 0
    ensures a % n == (if JsRemainder(a, n) < 0 then JsRemainder(a, n) + n else JsRemainder(a, n))
  {
    var q, m := (-a) / n, (-a) % n;
    assert -a == q * n + m;
    if a >= 0 {
    } else if m == 0 {
      assert a == (-q) * n + 0;
      DivisionUnique(a, n, -q, 0);
    } else {
      assert a == (-q - 1) * n + (n - m);
      DivisionUnique(a, n, -q - 1, n - m);
    }
  }

  /** The examples of the position arithmetic on a 5-item list at position 2. */
  lemma ShiftExamples()
    ensures ShiftPosition(5, 2, -1, true) == 1
    ensures ShiftPosition(5, 2, 0, false) == 0
    ensures ShiftPosition(5, 2, -1, false) == 4
    ensures ShiftPosition(5, 4, 1, true) == 0
  {
  }

  /**
   * The array after moving the element at `from` to `to`: the elements in
   * between move one step toward the vacated slot.
   */
  function Moved<T>(s: seq<T>, from: nat, to: nat): (r: seq<T>)
    requires from < |s| && to < |s|
    ensures |r| == |s|
    ensures r[to] == s[from]
  {
    if from < to then s[..from] + s[from + 1..to + 1] + [s[from]] + s[to + 1..]
    else if to < from then s[..to] + [s[from]] + s[to..from] + s[from + 1..]
    else s
  }

  /** The old position whose element a move leaves at position `i`. */
  function MovedSource(from: nat, to: nat, i: nat): nat
  {
    if i == to then from
    else if from < to && from <= i < to then i + 1
    else if to < from && to < i <= from then i - 1
    else i
  }

  /** Each position of a moved array holds the element of its source position. */
  lemma MovedAt<T>(s: seq<T>, from: nat, to: nat, i: nat)
    requires from < |s| && to < |s| && i < |s|
    ensures MovedSource(from, to, i) < |s|
    ensures Moved(s, from, to)[i] == s[MovedSource(from, to, i)]
  {
    if from < to {
      var a, b := s[..from], s[from + 1..to + 1];
      assert Moved(s, from, to) == a + b + [s[from]] + s[to + 1..];
      if from <= i < to {
        assert (a + b)[i] == b[i - from];
      }
    } else if to < from {
      var a, b := s[..to], s[to..from];
      assert Moved(s, from, to) == a + [s[from]] + b + s[from + 1..];
      if to < i <= from {
        assert (a + [s[from]] + b)[i] == b[i - to - 1];
      }
    }
  }

  /** No two positions of a moved array come from the same old position. */
  lemma MovedSourceInjective(from: nat, to: nat, i: nat, j: nat)
    requires MovedSource(from, to, i) == MovedSource(from, to, j)
    ensures i == j
  {
  }

  /** A move keeps every element and its number of occurrences. */
  lemma MovedPermutation<T>(s: seq<T>, from: nat, to: nat)
    requires from < |s| && to < |s|
    ensures multiset(Moved(s, from, to)) == multiset(s)
  {
    if from < to {
      var a, b, c := s[..from], s[from + 1..to + 1], s[to + 1..];
      assert s == a + [s[from]] + b + c;
      assert Moved(s, from, to) == a + b + [s[from]] + c;
      assert multiset(a + b + [s[from]] + c) == multiset(a) + multiset(b) + multiset{s[from]} + multiset(c);
    } else if to < from {
      var a, b, c := s[..to], s[to..from], s[from + 1..];
      assert s == a + b + [s[from]] + c;
      assert Moved(s, from, to) == a + [s[from]] + b + c;
      assert multiset(a + b + [s[from]] + c) == multiset(a) + multiset(b) + multiset{s[from]} + multiset(c);
    }
  }

  /**
   * The element-shifting loops of `moveItem`: shift the elements between
   * `from` and `to` one step toward `from`, then drop the saved element at `to`.
   */
  method MoveWithin<T>(s: seq<T>, from: nat, to: nat) returns (t: seq<T>)
    requires from < |s| && to < |s|
    ensures t == Moved(s, from, to)
    ensures t[to] == s[from]
    ensures forall i :: from < i <= to ==> t[i - 1] == s[i]
    ensures forall i :: to <= i < from ==> t[i + 1] == s[i]
    ensures forall i :: 0 <= i < |s| && (i < from || i > to) && (i < to || i > from) ==> t[i] == s[i]
    ensures multiset(t) == multiset(s)
  {
    t := s;
    var item := t[from];
    var position := from;
    while position > to
      invariant |t| == |s|
      invariant from <= to ==> position == from && t == s
      invariant from > to ==> to <= position <= from
      invariant from > to ==> forall i :: 0 <= i <= position ==> t[i] == s[i]
      invariant from > to ==> forall i :: position < i <= from ==> t[i] == s[i - 1]
      invariant from > to ==> forall i :: from < i < |s| ==> t[i] == s[i]
    {
      t := t[position := t[position - 1]];
      position := position - 1;
    }
    while position < to
      invariant |t| == |s|
      invariant from > to ==> position == to
      invariant from > to ==> forall i :: 0 <= i < |s| && (i <= to || i > from) ==> t[i] == s[i]
      invariant from > to ==> forall i :: to < i <= from ==> t[i] == s[i - 1]
      invariant from <= to ==> from <= position <= to
      invariant from <= to ==> forall i :: 0 <= i < from ==> t[i] == s[i]
      invariant from <= to ==> forall i :: from <= i < position ==> t[i] == s[i + 1]
      invariant from <= to ==> forall i :: position <= i < |s| ==> t[i] == s[i]
    {
      t := t[position := t[position + 1]];
      position := position + 1;
    }
    t := t[position := item];
    forall i | 0 <= i < |s|
      ensures t[i] == Moved(s, from, to)[i]
    {
      MovedAt(s, from, to, i);
    }
    MovedPermutation(s, from, to);
  }

  /** The array with the elements of two slots exchanged. */
  function Swapped<T>(s: seq<T>, i: nat, j: nat): (r: seq<T>)
    requires i < |s| && j < |s|
    ensures |r| == |s| && r[i] == s[j] && r[j] == s[i]
    ensures forall k :: 0 <= k < |s| && k != i && k != j ==> r[k] == s[k]
    ensures multiset(r) == multiset(s)
  {
    s[i := s[j]][j := s[i]]
  }
}
