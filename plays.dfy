/**
 * The play record both revisions keep in their lists, and the indexing
 * discipline every indexed list keeps: each item carries the value the
 * list's counter had when the item was added, so indices are distinct and
 * all below the counter.
 */
module Plays {
  import opened ItemSequences

  /** A play: the name of its summary file and the index its list gave it. */
  datatype Play = Play(name: string, index: int)

  function NamesOf(plays: seq<Play>): seq<string>
  {
    seq(|plays|, i requires 0 <= i < |plays| => plays[i].name)
  }

  function IndicesOf(plays: seq<Play>): seq<int>
  {
    seq(|plays|, i requires 0 <= i < |plays| => plays[i].index)
  }

  /** The plays that successive `addItem` calls append for `names`, the counter starting at `start`. */
  function Numbered(names: seq<string>, start: int): seq<Play>
  {
    seq(|names|, k requires 0 <= k < |names| => Play(names[k], start + k))
  }

  /** Indices are distinct and below the counter. */
  predicate Indexed(plays: seq<Play>, counter: int)
  {
    && (forall i :: 0 <= i < |plays| ==> plays[i].index < counter)
    && (forall i, j :: 0 <= i < j < |plays| ==> plays[i].index != plays[j].index)
  }

  /** Appending numbered plays keeps the discipline, the counter moving past them; their names are the given ones. */
  lemma NumberedIndexed(plays: seq<Play>, counter: int, names: seq<string>)
    requires Indexed(plays, counter)
    ensures Indexed(plays + Numbered(names, counter), counter + |names|)
    ensures NamesOf(plays + Numbered(names, counter)) == NamesOf(plays) + names
  {
    var r := plays + Numbered(names, counter);
    forall i, j | 0 <= i < j < |r|
      ensures r[i].index != r[j].index
    {
      if j >= |plays| && i < |plays| {
        assert r[i].index < counter <= r[j].index;
      }
    }
  }

  lemma NumberedStep(names: seq<string>, start: int, k: nat)
    requires k < |names|
    ensures Numbered(names[..k + 1], start) == Numbered(names[..k], start) + [Play(names[k], start + k)]
  {
  }

  lemma NumberedAppend(names: seq<string>, name: string, start: int)
    ensures Numbered(names + [name], start) == Numbered(names, start) + [Play(name, start + |names|)]
  {
  }

  /** Adding one more name after the numbered plays of a list is numbering one name more. */
  lemma NumberedExtend(plays: seq<Play>, names: seq<string>, name: string, start: int)
    ensures (plays + Numbered(names, start)) + [Play(name, start + |names|)] == plays + Numbered(names + [name], start)
  {
    NumberedAppend(names, name, start);
  }

  /** The plays added since a clear carry consecutive, strictly increasing indices. */
  lemma NumberedConsecutive(names: seq<string>, start: int)
    ensures forall k :: 0 < k < |names| ==> Numbered(names, start)[k].index == Numbered(names, start)[k - 1].index + 1
    ensures forall i, j :: 0 <= i < j < |names| ==> Numbered(names, start)[i].index < Numbered(names, start)[j].index
  {
  }

  /** Within a list that keeps the discipline, the lookup by index finds the one play of that index. */
  lemma IndexedLookup(plays: seq<Play>, counter: int, i: nat)
    requires Indexed(plays, counter) && i < |plays|
    ensures PositionOf(IndicesOf(plays), plays[i].index) == i
  {
    var p := PositionOf(IndicesOf(plays), plays[i].index);
    assert IndicesOf(plays)[i] == plays[i].index;
  }

  /** A move permutes the plays, so it keeps the discipline. */
  lemma MovedIndexed(plays: seq<Play>, counter: int, from: nat, to: nat)
    requires Indexed(plays, counter) && from < |plays| && to < |plays|
    ensures Indexed(Moved(plays, from, to), counter)
  {
    var r := Moved(plays, from, to);
    forall i | 0 <= i < |r|
      ensures r[i].index < counter
    {
      MovedAt(plays, from, to, i);
    }
    forall i, j | 0 <= i < j < |r|
      ensures r[i].index != r[j].index
    {
      MovedAt(plays, from, to, i);
      MovedAt(plays, from, to, j);
      if MovedSource(from, to, i) == MovedSource(from, to, j) {
        MovedSourceInjective(from, to, i, j);
      }
    }
  }

  /** Removing one slot keeps the discipline, and the removed index is gone. */
  lemma RemoveAtIndexed(plays: seq<Play>, counter: int, position: nat)
    requires Indexed(plays, counter) && position < |plays|
    ensures Indexed(RemoveAt(plays, position), counter)
    ensures plays[position].index !in IndicesOf(RemoveAt(plays, position))
  {
    var r := RemoveAt(plays, position);
    forall i, j | 0 <= i < j < |r|
      ensures r[i].index != r[j].index
    {
      var i' := if i < position then i else i + 1;
      var j' := if j < position then j else j + 1;
      assert r[i] == plays[i'] && r[j] == plays[j'];
    }
    forall i | 0 <= i < |r|
      ensures IndicesOf(r)[i] != plays[position].index
    {
      var i' := if i < position then i else i + 1;
      assert r[i] == plays[i'];
    }
  }

  /** A swap of two slots keeps the discipline. */
  lemma SwappedIndexed(plays: seq<Play>, counter: int, i: nat, j: nat)
    requires Indexed(plays, counter) && i < |plays| && j < |plays|
    ensures Indexed(Swapped(plays, i, j), counter)
  {
    var r := Swapped(plays, i, j);
    forall a, b | 0 <= a < b < |r|
      ensures r[a].index != r[b].index
    {
      var a' := if a == i then j else if a == j then i else a;
      var b' := if b == i then j else if b == j then i else b;
      assert r[a] == plays[a'] && r[b] == plays[b'];
    }
  }
}
