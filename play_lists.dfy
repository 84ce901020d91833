/**
 * The lists of the newer revision (src/main/html/script.js). Its class chain
 * ItemList, NamedItemList, IndexedItemList and PaginatedItemList is
 * flattened into the two concrete lists: `PlayList`, the plays of one
 * playlist, and `PlayListList`, the playlists, each of which persists its
 * plays under the key `storagePrefix + name`. `SearchManager` holds the
 * operations of the manager chain that change those lists.
 */
module PlayLists {
  import opened Options
  import opened ItemSequences
  import opened Persistence
  import opened Plays
  import Escaping
  import Ranking

  /** Items per page. */
  const PageSize := 20

  // ---------------------------------------------------------------------------
  // Pages
  // ---------------------------------------------------------------------------

  function Min(a: int, b: int): int
  {
    if a < b then a else b
  }

  /** `getPageCount`: the number of pages of a list of that length, the length divided by 20 rounded up. */
  function PageCount(length: nat): (r: nat)
    ensures r * PageSize >= length
    ensures r > 0 ==> (r - 1) * PageSize < length
  {
    (length + PageSize - 1) / PageSize
  }

  /** The slots `[20 number, min(20 number + 20, length))` of a list. */
  function Page<T>(s: seq<T>, number: nat): (r: seq<T>)
    ensures |r| <= PageSize
    ensures number < PageCount(|s|) - 1 ==> |r| == PageSize
    ensures number >= PageCount(|s|) ==> r == []
  {
    s[Min(number * PageSize, |s|)..Min(number * PageSize + PageSize, |s|)]
  }

  /** The pages before page `count`, one after the other. */
  function Pages<T>(s: seq<T>, count: nat): (r: seq<T>)
    ensures |r| == Min(count * PageSize, |s|)
  {
    if count == 0 then [] else Pages(s, count - 1) + Page(s, count - 1)
  }

  lemma {:induction false} PagesPrefix<T>(s: seq<T>, count: nat)
    ensures Pages(s, count) == s[..Min(count * PageSize, |s|)]
  {
    if count > 0 {
      PagesPrefix(s, count - 1);
      var a, b := Min((count - 1) * PageSize, |s|), Min(count * PageSize, |s|);
      assert s[..a] + s[a..b] == s[..b];
    }
  }

  /** Pages 0 to `getPageCount() - 1` put together are exactly the list. */
  lemma PagesCover<T>(s: seq<T>)
    ensures Pages(s, PageCount(|s|)) == s
  {
    PagesPrefix(s, PageCount(|s|));
  }

  // ---------------------------------------------------------------------------
  // A playlist
  // ---------------------------------------------------------------------------

  class PlayList {
    const storage: LocalStorage
    /** The store key; "" for the search result list, which is never stored. */
    const storageId: string
    const name: string
    /** The index the playlist list gave this playlist. */
    const index: int
    var items: seq<Play>
    var itemIndex: int

    ghost predicate Valid()
      reads this
    {
      Indexed(items, itemIndex)
    }

    function Names(): seq<string>
      reads this
    {
      NamesOf(items)
    }

    function Indices(): seq<int>
      reads this
    {
      IndicesOf(items)
    }

    constructor (storage: LocalStorage, storageId: string, name: string, index: int)
      ensures this.storage == storage && this.storageId == storageId
      ensures this.name == name && this.index == index
      ensures items == [] && itemIndex == 0 && Valid()
    {
      this.storage := storage;
      this.storageId := storageId;
      this.name := name;
      this.index := index;
      items := [];
      itemIndex := 0;
    }

    /** `store`: write the names under the key, remove the key of an empty list, skip a list without a key. */
    method Store()
      modifies storage
      ensures storage.entries == Stored(old(storage.entries), storageId, Names())
    {
      if storageId != "" {
        if |items| > 0 {
          storage.SetItem(storageId, ToString(Names()));
        } else {
          storage.RemoveItem(storageId);
        }
      }
    }

    /** `clear`: empty the list, drop its key, and restart the counter at -1. */
    method Clear()
      modifies this, storage
      ensures items == [] && itemIndex == -1 && Valid()
      ensures storage.entries == Stored(old(storage.entries), storageId, [])
    {
      items := [];
      Store();
      itemIndex := -1;
    }

    /** `addItem`: append a play, store, and give the play the counter's value. */
    method AddItem(playName: string) returns (play: Play)
      requires Valid()
      modifies this, storage
      ensures Valid()
      ensures play == Play(playName, old(itemIndex))
      ensures items == old(items) + [play] && itemIndex == old(itemIndex) + 1
      ensures Names() == old(Names()) + [playName]
      ensures storage.entries == Stored(old(storage.entries), storageId, Names())
    {
      NumberedIndexed(items, itemIndex, [playName]);
      play := Play(playName, itemIndex);
      items := items + [play];
      Store();
      itemIndex := itemIndex + 1;
    }

    /** The loop of `load`: add each name through `addItem`, in order. */
    method AddItems(names: seq<string>)
      requires Valid()
      modifies this, storage
      ensures Valid()
      ensures items == old(items) + Numbered(names, old(itemIndex))
      ensures itemIndex == old(itemIndex) + |names|
      ensures Names() == old(Names()) + names
      ensures storage.entries == (if names == [] then old(storage.entries) else Stored(old(storage.entries), storageId, Names()))
    {
      for k := 0 to |names|
        invariant Valid()
        invariant items == old(items) + Numbered(names[..k], old(itemIndex))
        invariant itemIndex == old(itemIndex) + k
        invariant storage.entries == if k == 0 then old(storage.entries) else Stored(old(storage.entries), storageId, Names())
      {
        AddNext(names, k, old(items), old(itemIndex), old(storage.entries));
      }
      assert names[..|names|] == names;
      NumberedIndexed(old(items), old(itemIndex), names);
    }

    /** One turn of that loop: add name k after the k names already added. */
    method AddNext(names: seq<string>, k: nat, ghost start: seq<Play>, ghost counter: int, ghost entries: map<string, string>)
      requires Valid() && k < |names|
      requires items == start + Numbered(names[..k], counter) && itemIndex == counter + k
      requires storage.entries == if k == 0 then entries else Stored(entries, storageId, Names())
      modifies this, storage
      ensures Valid()
      ensures items == start + Numbered(names[..k + 1], counter) && itemIndex == counter + k + 1
      ensures storage.entries == Stored(entries, storageId, Names())
    {
      assert names[..k + 1] == names[..k] + [names[k]];
      NumberedExtend(start, names[..k], names[k], counter);
      var _ := AddItem(names[k]);
    }

    /** `addItem` after a run of numbered names: the run grows by one name. */
    method AddAfter(ghost added: seq<string>, value: string, ghost start: seq<Play>, ghost counter: int)
      requires Valid()
      requires items == start + Numbered(added, counter) && itemIndex == counter + |added|
      modifies this, storage
      ensures Valid()
      ensures items == start + Numbered(added + [value], counter) && itemIndex == counter + |added| + 1
      ensures storage.entries == Stored(old(storage.entries), storageId, Names())
    {
      NumberedExtend(start, added, value, counter);
      var _ := AddItem(value);
    }

    /**
     * `load`: add the stored names in stored order. `ok` is false where
     * `JSON.parse` throws, and then nothing has changed.
     */
    method Load() returns (ok: bool)
      requires Valid()
      modifies this, storage
      ensures Valid()
      ensures ok == StoredNames(old(storage.entries), storageId).Some?
      ensures !ok ==> items == old(items) && itemIndex == old(itemIndex) && storage.entries == old(storage.entries)
      ensures ok ==> var names := StoredNames(old(storage.entries), storageId).value;
        && items == old(items) + Numbered(names, old(itemIndex))
        && itemIndex == old(itemIndex) + |names|
        && Names() == old(Names()) + names
        && storage.entries == (if names == [] then old(storage.entries) else Stored(old(storage.entries), storageId, Names()))
      ensures ok && old(items) == [] ==> storage.entries == old(storage.entries)
    {
      ok := true;
      if storageId != "" {
        var nameItem := storage.GetItem(storageId);
        if nameItem.Some? && nameItem.value != "" {
          var nameArray := ParseNames(nameItem.value);
          if nameArray.None? {
            ok := false;
            return;
          }
          ghost var entries := storage.entries;
          AddItems(nameArray.value);
          if old(items) == [] {
            assert Names() == nameArray.value;
            RestoreLoaded(entries, storageId);
          }
        }
      }
    }

    /** `getNamedItemPosition`: the first position of a play of that name, else -1. */
    method GetNamedItemPosition(playName: string) returns (result: int)
      ensures result == PositionOf(Names(), playName)
    {
      result := FindPosition(Names(), playName);
    }

    /** `getIndexedItemPosition`: the first position of a play of that index, else -1. */
    method GetIndexedItemPosition(playIndex: int) returns (result: int)
      ensures result == PositionOf(Indices(), playIndex)
    {
      result := FindPosition(Indices(), playIndex);
    }

    /** `getIndexedItem`: the play of that index, or `undefined`. */
    method GetIndexedItem(playIndex: int) returns (result: Option<Play>)
      ensures result.Some? <==> playIndex in Indices()
      ensures result.Some? ==> result.value == items[PositionOf(Indices(), playIndex)] && result.value.index == playIndex
    {
      result := None;
      var position := GetIndexedItemPosition(playIndex);
      if position != -1 {
        result := Some(items[position]);
      }
    }

    /**
     * `moveItem`: move the play at `position` to the shifted position and
     * store; -1, with nothing changed, when there is no play or it would stay.
     */
    method MoveItem(position: int, shift: int, relative: bool) returns (result: int)
      requires Valid()
      requires position == -1 || 0 <= position < |items|
      modifies this, storage
      ensures Valid() && itemIndex == old(itemIndex)
      ensures var target := ShiftPosition(|old(items)|, position, shift, relative);
        if position == -1 || target == position then
          result == -1 && items == old(items) && storage.entries == old(storage.entries)
        else
          && result == target
          && items == Moved(old(items), position, target)
          && storage.entries == Stored(old(storage.entries), storageId, Names())
    {
      result := -1;
      if position != -1 {
        var newPosition := ShiftPosition(|items|, position, shift, relative);
        if position != newPosition {
          result := newPosition;
          MovedIndexed(items, itemIndex, position, newPosition);
          items := MoveWithin(items, position, newPosition);
          Store();
        }
      }
    }

    /** `removeItem`: delete the slot at `position` and store; -1 changes nothing. */
    method RemoveItem(position: int) returns (result: int)
      requires Valid()
      requires position == -1 || 0 <= position < |items|
      modifies this, storage
      ensures Valid() && itemIndex == old(itemIndex) && result == position
      ensures position == -1 ==> items == old(items) && storage.entries == old(storage.entries)
      ensures position != -1 ==>
        && items == RemoveAt(old(items), position)
        && storage.entries == Stored(old(storage.entries), storageId, Names())
    {
      result := -1;
      if position != -1 {
        result := position;
        RemoveAtIndexed(items, itemIndex, position);
        items := RemoveAt(items, position);
        Store();
      }
    }

    /** `getPage`: the plays of page `number`. */
    method GetPage(number: nat) returns (result: seq<Play>)
      ensures result == Page(items, number)
    {
      result := [];
      var position := number * PageSize;
      var maxPosition := Min(position + PageSize, |items|);
      while position < maxPosition
        invariant number * PageSize <= position
        invariant position <= maxPosition || position == number * PageSize
        invariant result == items[Min(number * PageSize, |items|)..Min(position, |items|)]
      {
        result := result + [items[position]];
        position := position + 1;
      }
    }
  }

  // ---------------------------------------------------------------------------
  // The list of playlists
  // ---------------------------------------------------------------------------

  /** The store keys of the playlists. */
  function StorageIds(playLists: seq<PlayList>): seq<string>
  {
    seq(|playLists|, i requires 0 <= i < |playLists| => playLists[i].storageId)
  }

  function ListNames(playLists: seq<PlayList>): seq<string>
  {
    seq(|playLists|, i requires 0 <= i < |playLists| => playLists[i].name)
  }

  function ListIndices(playLists: seq<PlayList>): seq<int>
  {
    seq(|playLists|, i requires 0 <= i < |playLists| => playLists[i].index)
  }

  /** A move permutes the playlists, so their indices stay distinct. */
  lemma MovedPlayLists(before: seq<PlayList>, from: nat, to: nat)
    requires from < |before| && to < |before|
    requires forall i, j :: 0 <= i < j < |before| ==> before[i].index != before[j].index
    ensures forall i :: 0 <= i < |before| ==> Moved(before, from, to)[i] == before[MovedSource(from, to, i)]
    ensures forall i, j :: 0 <= i < j < |before| ==> Moved(before, from, to)[i].index != Moved(before, from, to)[j].index
  {
    forall i | 0 <= i < |before|
      ensures Moved(before, from, to)[i] == before[MovedSource(from, to, i)]
    {
      MovedAt(before, from, to, i);
    }
    forall i, j | 0 <= i < j < |before|
      ensures Moved(before, from, to)[i].index != Moved(before, from, to)[j].index
    {
      if MovedSource(from, to, i) == MovedSource(from, to, j) {
        MovedSourceInjective(from, to, i, j);
      }
    }
  }

  class PlayListList {
    const storage: LocalStorage
    const storageId: string
    /** Prepended to a playlist's name to form that playlist's store key. */
    const storagePrefix: string
    var items: seq<PlayList>
    var itemIndex: int

    /** Every playlist shares the store, is keyed by prefix and name, and keeps its own discipline; indices are distinct and below the counter. */
    ghost predicate Valid()
      reads this, items
    {
      && (forall i :: 0 <= i < |items| ==> ChildOf(items[i]))
      && (forall i, j :: 0 <= i < j < |items| ==> items[i].index != items[j].index)
    }

    /** A playlist of this list: in the same store, keyed by prefix and name, indexed below the counter, valid. */
    ghost predicate ChildOf(playList: PlayList)
      reads this, playList
    {
      && playList.storage == storage
      && playList.storageId == storagePrefix + playList.name
      && playList.index < itemIndex
      && playList.Valid()
    }

    function Names(): seq<string>
      reads this
    {
      ListNames(items)
    }

    function Indices(): seq<int>
      reads this
    {
      ListIndices(items)
    }

    /** The lists hold what the store held: the names under the list's key, each playlist's plays under its key. */
    ghost predicate LoadedFrom(entries: map<string, string>)
      reads this, items
    {
      && StoredNames(entries, storageId) == Some(Names())
      && forall i :: 0 <= i < |items| ==> StoredNames(entries, items[i].storageId) == Some(items[i].Names())
    }

    /** The constructor creates the empty list and loads it. */
    constructor (storage: LocalStorage, storageId: string, storagePrefix: string)
      modifies storage
      ensures this.storage == storage && this.storageId == storageId && this.storagePrefix == storagePrefix
      ensures Valid() && storage.entries == old(storage.entries)
      ensures forall i :: 0 <= i < |items| ==> fresh(items[i])
      ensures Loadable(old(storage.entries), storageId, storagePrefix) ==> LoadedFrom(old(storage.entries))
    {
      this.storage := storage;
      this.storageId := storageId;
      this.storagePrefix := storagePrefix;
      items := [];
      itemIndex := 0;
      new;
      var _ := Load();
    }

    method Store()
      modifies storage
      ensures storage.entries == Stored(old(storage.entries), storageId, Names())
    {
      if storageId != "" {
        if |items| > 0 {
          storage.SetItem(storageId, ToString(Names()));
        } else {
          storage.RemoveItem(storageId);
        }
      }
    }

    /** `addItem`: append a new, empty playlist keyed by prefix and name, store, and give it the counter's value. */
    method AddItem(playListName: string) returns (playList: PlayList)
      requires Valid()
      modifies this, storage
      ensures Valid()
      ensures fresh(playList)
      ensures playList.storage == storage && playList.storageId == storagePrefix + playListName
      ensures playList.name == playListName && playList.index == old(itemIndex)
      ensures playList.items == [] && playList.itemIndex == 0
      ensures items == old(items) + [playList] && itemIndex == old(itemIndex) + 1
      ensures Names() == old(Names()) + [playListName]
      ensures storage.entries == Stored(old(storage.entries), storageId, Names())
    {
      playList := new PlayList(storage, storagePrefix + playListName, playListName, itemIndex);
      items := items + [playList];
      Store();
      itemIndex := itemIndex + 1;
    }

    /** The loop of `load` over the stored names: add a playlist for each. */
    method AddItems(names: seq<string>)
      requires Valid()
      modifies this, storage
      ensures Valid()
      ensures |items| == |old(items)| + |names| && items[..|old(items)|] == old(items)
      ensures Names() == old(Names()) + names && itemIndex == old(itemIndex) + |names|
      ensures forall i :: |old(items)| <= i < |items| ==>
        fresh(items[i]) && items[i].items == [] && items[i].itemIndex == 0 && items[i].index == old(itemIndex) + i - |old(items)|
      ensures storage.entries == (if names == [] then old(storage.entries) else Stored(old(storage.entries), storageId, Names()))
    {
      for k := 0 to |names|
        invariant Valid()
        invariant |items| == |old(items)| + k && items[..|old(items)|] == old(items)
        invariant Names() == old(Names()) + names[..k] && itemIndex == old(itemIndex) + k
        invariant forall i :: |old(items)| <= i < |items| ==>
          fresh(items[i]) && items[i].items == [] && items[i].itemIndex == 0 && items[i].index == old(itemIndex) + i - |old(items)|
        invariant storage.entries == if k == 0 then old(storage.entries) else Stored(old(storage.entries), storageId, Names())
      {
        assert names[..k + 1] == names[..k] + [names[k]];
        var _ := AddItem(names[k]);
      }
      assert names[..|names|] == names;
    }

    /**
     * `load`: add a playlist for every stored name, then load each playlist.
     * `ok` is false where `JSON.parse` throws; the playlists after the one
     * that failed stay empty. Only called by the constructor, on the empty list.
     */
    method Load() returns (ok: bool)
      requires Valid() && items == []
      modifies this, storage
      ensures Valid() && storage.entries == old(storage.entries)
      ensures forall i :: 0 <= i < |items| ==> fresh(items[i])
      ensures ok == Loadable(old(storage.entries), storageId, storagePrefix)
      ensures ok ==> LoadedFrom(old(storage.entries))
    {
      ghost var entries := storage.entries;
      ok := LoadNames();
      if !ok {
        return;
      }
      ok := LoadItems();
      if !ok {
        ghost var k :| 0 <= k < |items| && StoredNames(entries, items[k].storageId).None?;
        assert items[k].storageId == storagePrefix + Names()[k];
      } else {
        forall k | 0 <= k < |Names()|
          ensures StoredNames(entries, storagePrefix + Names()[k]).Some?
        {
          assert items[k].storageId == storagePrefix + Names()[k];
        }
      }
    }

    /** The first half of `load`: a new, empty playlist for each stored name; false where `JSON.parse` throws. */
    method LoadNames() returns (ok: bool)
      requires Valid() && items == []
      modifies this, storage
      ensures Valid() && storage.entries == old(storage.entries)
      ensures forall i :: 0 <= i < |items| ==> fresh(items[i]) && items[i].items == []
      ensures ok == StoredNames(old(storage.entries), storageId).Some?
      ensures ok ==> StoredNames(old(storage.entries), storageId) == Some(Names())
    {
      ok := true;
      ghost var entries := storage.entries;
      if storageId != "" {
        var nameItem := storage.GetItem(storageId);
        if nameItem.Some? && nameItem.value != "" {
          var nameArray := ParseNames(nameItem.value);
          if nameArray.None? {
            ok := false;
            return;
          }
          AddItems(nameArray.value);
          assert Names() == nameArray.value;
          RestoreLoaded(entries, storageId);
          assert StoredNames(entries, storageId) == Some(Names());
        } else {
          assert Names() == [];
          assert StoredNames(entries, storageId) == Some(Names());
        }
      } else {
        assert Names() == [];
        assert StoredNames(entries, storageId) == Some(Names());
      }
    }

    /** The loop of `load` over the playlists: load each, stopping at the first whose text does not parse. */
    method LoadItems() returns (ok: bool)
      requires Valid()
      requires forall i :: 0 <= i < |items| ==> items[i].items == []
      modifies storage, items
      ensures Valid() && storage.entries == old(storage.entries)
      ensures ok == forall i :: 0 <= i < |items| ==> StoredNames(old(storage.entries), items[i].storageId).Some?
      ensures ok ==> forall i :: 0 <= i < |items| ==> StoredNames(old(storage.entries), items[i].storageId) == Some(items[i].Names())
    {
      ok := true;
      for k := 0 to |items|
        invariant Valid() && storage.entries == old(storage.entries)
        invariant forall i :: k <= i < |items| ==> items[i].items == []
        invariant forall i :: 0 <= i < k ==> StoredNames(old(storage.entries), items[i].storageId) == Some(items[i].Names())
      {
        var childOk := LoadChild(k);
        if !childOk {
          ok := false;
          return;
        }
      }
    }

    /** One turn of that loop: load the playlist at position k; no other playlist changes. */
    method LoadChild(k: nat) returns (ok: bool)
      requires Valid() && k < |items| && items[k].items == []
      modifies storage, items[k]
      ensures Valid() && storage.entries == old(storage.entries)
      ensures forall i :: 0 <= i < |items| && i != k ==> items[i].items == old(items[i].items)
      ensures ok == StoredNames(storage.entries, items[k].storageId).Some?
      ensures ok ==> StoredNames(storage.entries, items[k].storageId) == Some(items[k].Names())
    {
      var child := items[k];
      forall i | 0 <= i < |items| && i != k
        ensures items[i] != child
      {
        assert items[i].index != child.index;
      }
      ok := child.Load();
      if ok {
        assert child.Names() == StoredNames(storage.entries, child.storageId).value;
      }
    }

    /**
     * `clear`: clear every playlist, then the list itself; afterwards neither
     * the list's key nor any former playlist's key is in the store.
     */
    method Clear()
      requires Valid()
      modifies this, storage, items
      ensures items == [] && itemIndex == -1 && Valid()
      ensures forall i :: 0 <= i < |old(items)| ==> old(items)[i].items == [] && old(items)[i].itemIndex == -1
      ensures storage.entries == Stored(Removed(old(storage.entries), StorageIds(old(items))), storageId, [])
      ensures forall i :: 0 <= i < |old(items)| && old(items)[i].storageId != "" ==> old(items)[i].storageId !in storage.entries
      ensures storageId != "" ==> storageId !in storage.entries
    {
      ghost var playLists := items;
      ClearChildren();
      items := [];
      Store();
      itemIndex := -1;
      forall i | 0 <= i < |playLists| && playLists[i].storageId != ""
        ensures playLists[i].storageId !in storage.entries
      {
        assert StorageIds(playLists)[i] == playLists[i].storageId;
      }
    }

    /** The loop of `clear` over the playlists: clear each one, dropping its key. */
    method ClearChildren()
      requires Valid()
      modifies storage, items
      ensures forall i :: 0 <= i < |items| ==> items[i].items == [] && items[i].itemIndex == -1
      ensures storage.entries == Removed(old(storage.entries), StorageIds(items))
    {
      assert StorageIds(items[..0]) == [];
      for k := 0 to |items|
        invariant storage.entries == Removed(old(storage.entries), StorageIds(items[..k]))
        invariant forall i :: 0 <= i < k ==> items[i].items == [] && items[i].itemIndex == -1
      {
        RemovedStep(old(storage.entries), StorageIds(items[..k]), items[k].storageId);
        assert StorageIds(items[..k + 1]) == StorageIds(items[..k]) + [items[k].storageId];
        items[k].Clear();
      }
      assert items[..|items|] == items;
    }

    /** `getNamedItemPosition`: the first position of a playlist of that name, else -1. */
    method GetNamedItemPosition(playListName: string) returns (result: int)
      ensures result == PositionOf(Names(), playListName)
    {
      result := FindPosition(Names(), playListName);
    }

    /** `getIndexedItemPosition`: the first position of a playlist of that index, else -1. */
    method GetIndexedItemPosition(playListIndex: int) returns (result: int)
      ensures result == PositionOf(Indices(), playListIndex)
    {
      result := FindPosition(Indices(), playListIndex);
    }

    /** `getIndexedItem`: the playlist of that index, or `undefined`. */
    method GetIndexedItem(playListIndex: int) returns (result: Option<PlayList>)
      ensures result.Some? <==> playListIndex in Indices()
      ensures result.Some? ==> result.value == items[PositionOf(Indices(), playListIndex)] && result.value.index == playListIndex
    {
      result := None;
      var position := GetIndexedItemPosition(playListIndex);
      if position != -1 {
        result := Some(items[position]);
      }
    }

    /** `moveItem`, on the playlists. */
    method MoveItem(position: int, shift: int, relative: bool) returns (result: int)
      requires Valid()
      requires position == -1 || 0 <= position < |items|
      modifies this, storage
      ensures Valid() && itemIndex == old(itemIndex)
      ensures forall i :: 0 <= i < |items| ==> items[i] in old(items)
      ensures var target := ShiftPosition(|old(items)|, position, shift, relative);
        if position == -1 || target == position then
          result == -1 && items == old(items) && storage.entries == old(storage.entries)
        else
          && result == target
          && items == Moved(old(items), position, target)
          && storage.entries == Stored(old(storage.entries), storageId, Names())
    {
      result := -1;
      if position != -1 {
        var newPosition := ShiftPosition(|items|, position, shift, relative);
        if position != newPosition {
          result := newPosition;
          MoveChildren(position, newPosition);
          Store();
        }
      }
    }

    /** The element-shifting part of `moveItem` on the playlists: every playlist stays one of this list. */
    method MoveChildren(from: nat, to: nat)
      requires Valid() && from < |items| && to < |items|
      modifies this
      ensures Valid() && itemIndex == old(itemIndex)
      ensures items == Moved(old(items), from, to)
      ensures forall i :: 0 <= i < |items| ==> items[i] in old(items)
    {
      ghost var before := items;
      MovedPlayLists(items, from, to);
      items := MoveWithin(items, from, to);
      forall i | 0 <= i < |items|
        ensures ChildOf(items[i]) && items[i] in before
      {
        assert items[i] == before[MovedSource(from, to, i)];
      }
    }

    /** `removeItem`, on the playlists; the removed playlist's own key stays in the store. */
    method RemoveItem(position: int) returns (result: int)
      requires Valid()
      requires position == -1 || 0 <= position < |items|
      modifies this, storage
      ensures Valid() && itemIndex == old(itemIndex) && result == position
      ensures forall i :: 0 <= i < |items| ==> items[i] in old(items)
      ensures position == -1 ==> items == old(items) && storage.entries == old(storage.entries)
      ensures position != -1 ==>
        && items == RemoveAt(old(items), position)
        && storage.entries == Stored(old(storage.entries), storageId, Names())
    {
      result := -1;
      if position != -1 {
        result := position;
        ghost var before := items;
        items := RemoveAt(items, position);
        forall i, j | 0 <= i < j < |items|
          ensures items[i].index != items[j].index
        {
          var i' := if i < position then i else i + 1;
          var j' := if j < position then j else j + 1;
          assert items[i] == before[i'] && items[j] == before[j'];
        }
        Store();
      }
    }
  }

  // ---------------------------------------------------------------------------
  // The manager
  // ---------------------------------------------------------------------------

  /** The store key of the list of playlists. */
  const PlayListListId := "katube-playListList"
  /** The prefix of every playlist's store key. */
  const PlayListPrefix := "katube-playList-"

  /**
   * The data half of the manager chain (PlayListListManager, PlayListManager,
   * PlayManager, SearchManager): the list of playlists, the search result
   * list, the playlist on display and the dictionary.
   */
  class SearchManager {
    const storage: LocalStorage
    const playListList: PlayListList
    /** The search results: a playlist without a store key, so never stored. */
    const resultPlayList: PlayList
    var displayedPlayList: PlayList?
    var displayedPageNumber: int
    var dictionary: Option<Ranking.Dictionary>

    ghost predicate Valid()
      reads this, playListList, playListList.items, resultPlayList, displayedPlayList
    {
      && playListList.storage == storage && playListList.Valid()
      && playListList.storageId == PlayListListId && playListList.storagePrefix == PlayListPrefix
      && resultPlayList.storage == storage && resultPlayList.storageId == "" && resultPlayList.Valid()
      && resultPlayList !in playListList.items
      && (displayedPlayList != null ==> displayedPlayList.storage == storage && displayedPlayList.Valid())
    }

    /** Creating the manager loads the playlists; nothing is displayed and no dictionary is loaded yet. */
    constructor (storage: LocalStorage)
      modifies storage
      ensures this.storage == storage && Valid()
      ensures storage.entries == old(storage.entries)
      ensures playListList.storageId == PlayListListId && playListList.storagePrefix == PlayListPrefix
      ensures Loadable(old(storage.entries), PlayListListId, PlayListPrefix) ==> playListList.LoadedFrom(old(storage.entries))
      ensures resultPlayList.items == [] && displayedPlayList == null && displayedPageNumber == -1 && dictionary == None
    {
      this.storage := storage;
      playListList := new PlayListList(storage, PlayListListId, PlayListPrefix);
      resultPlayList := new PlayList(storage, "", "", -1);
      displayedPlayList := null;
      displayedPageNumber := -1;
      dictionary := None;
    }

    /** The dictionary arrives: what the request's `onload` handler stores. */
    method LoadDictionary(loaded: Ranking.Dictionary)
      requires Valid()
      modifies this
      ensures Valid() && dictionary == Some(loaded)
      ensures displayedPlayList == old(displayedPlayList) && displayedPageNumber == old(displayedPageNumber)
    {
      dictionary := Some(loaded);
    }

    /**
     * `createPlayList`: add a playlist under the escaped input, unless that
     * is empty or already the name of a playlist; names stay unique.
     */
    method CreatePlayList(input: string)
      requires Valid()
      modifies playListList, storage
      ensures Valid()
      ensures var name := Escaping.Escaped(input);
        if |name| > 0 && name !in old(playListList.Names()) then
          && |playListList.items| == |old(playListList.items)| + 1
          && playListList.items[..|old(playListList.items)|] == old(playListList.items)
          && fresh(playListList.items[|old(playListList.items)|])
          && playListList.items[|old(playListList.items)|].items == []
          && playListList.items[|old(playListList.items)|].index == old(playListList.itemIndex)
          && playListList.itemIndex == old(playListList.itemIndex) + 1
          && playListList.Names() == old(playListList.Names()) + [name]
          && storage.entries == Stored(old(storage.entries), PlayListListId, playListList.Names())
        else
          && playListList.items == old(playListList.items)
          && playListList.itemIndex == old(playListList.itemIndex)
          && storage.entries == old(storage.entries)
      ensures Distinct(old(playListList.Names())) ==> Distinct(playListList.Names())
    {
      var name := Escaping.EscapeName(input);
      if |name| > 0 {
        var position := playListList.GetNamedItemPosition(name);
        if position == -1 {
          var playList := playListList.AddItem(name);
          assert playListList.items[..|old(playListList.items)|] == old(playListList.items);
          if Distinct(old(playListList.Names())) {
            DistinctAppend(old(playListList.Names()), name);
          }
        }
      }
    }

    /** `movePlayList`, its data half: move the playlist of that index. */
    method MovePlayList(index: int, shift: int, relative: bool)
      requires Valid()
      modifies playListList, storage
      ensures Valid() && playListList.itemIndex == old(playListList.itemIndex)
      ensures var position := PositionOf(old(playListList.Indices()), index);
        var target := ShiftPosition(|old(playListList.items)|, position, shift, relative);
        if position == -1 || target == position then
          playListList.items == old(playListList.items) && storage.entries == old(storage.entries)
        else
          && playListList.items == Moved(old(playListList.items), position, target)
          && storage.entries == Stored(old(storage.entries), PlayListListId, playListList.Names())
    {
      var position := playListList.GetIndexedItemPosition(index);
      var newPosition := playListList.MoveItem(position, shift, relative);
    }

    /** `removePlayList`, its data half: remove the playlist of that index. */
    method RemovePlayList(index: int)
      requires Valid()
      modifies playListList, storage
      ensures Valid() && playListList.itemIndex == old(playListList.itemIndex)
      ensures var position := PositionOf(old(playListList.Indices()), index);
        if position == -1 then
          playListList.items == old(playListList.items) && storage.entries == old(storage.entries)
        else
          && playListList.items == RemoveAt(old(playListList.items), position)
          && storage.entries == Stored(old(storage.entries), PlayListListId, playListList.Names())
    {
      var position := playListList.GetIndexedItemPosition(index);
      var removedPosition := playListList.RemoveItem(position);
    }

    /** `addPlay`: append a play to the playlist of that index, if there is one. */
    method AddPlay(index: int, playName: string)
      requires Valid()
      modifies storage, playListList.items
      ensures Valid()
      ensures var position := PositionOf(playListList.Indices(), index);
        if position == -1 then
          storage.entries == old(storage.entries)
        else
          var playList := playListList.items[position];
          && playList.items == old(playList.items) + [Play(playName, old(playList.itemIndex))]
          && playList.itemIndex == old(playList.itemIndex) + 1
          && storage.entries == Stored(old(storage.entries), playList.storageId, playList.Names())
      ensures forall i :: 0 <= i < |playListList.items| && i != PositionOf(playListList.Indices(), index) ==>
        unchanged(playListList.items[i])
    {
      var item := playListList.GetIndexedItem(index);
      if item.Some? {
        var playList := item.value;
        forall i | 0 <= i < |playListList.items| && playListList.items[i] != playList
          ensures i != PositionOf(playListList.Indices(), index)
        {
        }
        var play := playList.AddItem(playName);
      }
    }

    /** `setDisplayedPlayList`, its data half: display the playlist of that index from page 0. */
    method SetDisplayedPlayList(index: int)
      requires Valid()
      modifies this
      ensures Valid() && dictionary == old(dictionary)
      ensures var position := PositionOf(playListList.Indices(), index);
        displayedPlayList == (if position == -1 then null else playListList.items[position])
      ensures displayedPageNumber == 0
    {
      var item := playListList.GetIndexedItem(index);
      displayedPlayList := if item.Some? then item.value else null;
      displayedPageNumber := 0;
    }

    /** `movePlay`, its data half: move the play of that index within the displayed playlist. */
    method MovePlay(index: int, shift: int, relative: bool)
      requires Valid() && displayedPlayList != null
      modifies displayedPlayList, storage
      ensures Valid() && displayedPlayList.itemIndex == old(displayedPlayList.itemIndex)
      ensures var playList := displayedPlayList;
        var position := PositionOf(old(playList.Indices()), index);
        var target := ShiftPosition(|old(playList.items)|, position, shift, relative);
        if position == -1 || target == position then
          playList.items == old(playList.items) && storage.entries == old(storage.entries)
        else
          && playList.items == Moved(old(playList.items), position, target)
          && storage.entries == Stored(old(storage.entries), playList.storageId, playList.Names())
    {
      var position := displayedPlayList.GetIndexedItemPosition(index);
      var newPosition := displayedPlayList.MoveItem(position, shift, relative);
    }

    /** `removePlay`, its data half: remove the play of that index from the displayed playlist. */
    method RemovePlay(index: int)
      requires Valid() && displayedPlayList != null
      modifies displayedPlayList, storage
      ensures Valid() && displayedPlayList.itemIndex == old(displayedPlayList.itemIndex)
      ensures var playList := displayedPlayList;
        var position := PositionOf(old(playList.Indices()), index);
        if position == -1 then
          playList.items == old(playList.items) && storage.entries == old(storage.entries)
        else
          && playList.items == RemoveAt(old(playList.items), position)
          && storage.entries == Stored(old(storage.entries), playList.storageId, playList.Names())
    {
      var position := displayedPlayList.GetIndexedItemPosition(index);
      var removedPosition := displayedPlayList.RemoveItem(position);
    }

    /**
     * `searchPlay` without its DOM read and render: rank the query's
     * references, clear the result list (its counter restarts at -1) and
     * add the translation of each ranked name. `ok` is false where a name
     * has no translation and the source throws; the names before it are
     * then in the list, and the display has not switched.
     */
    method SearchPlay(query: string) returns (ok: bool)
      requires Valid()
      modifies this, resultPlayList, storage
      ensures Valid() && storage.entries == old(storage.entries) && dictionary == old(dictionary)
      ensures var names := Ranking.RankedNames(dictionary, query);
        && ok == Ranking.AllTranslated(dictionary, names)
        && resultPlayList.Names() == Ranking.TranslatedPrefix(dictionary, names)
        && resultPlayList.items == Numbered(resultPlayList.Names(), -1)
      ensures ok ==> displayedPlayList == resultPlayList && displayedPageNumber == 0
      ensures !ok ==> displayedPlayList == old(displayedPlayList) && displayedPageNumber == old(displayedPageNumber)
    {
      var countArray := Ranking.RankQuery(dictionary, query);
      resultPlayList.Clear();
      ok := AddTranslations(resultPlayList, dictionary, countArray);
      if ok {
        displayedPlayList := resultPlayList;
        displayedPageNumber := 0;
      }
    }
  }

  /** The last loop of `searchPlay`: add the translation of each ranked name, up to the first that has none. */
  method AddTranslations(playList: PlayList, dictionary: Option<Ranking.Dictionary>, countArray: seq<Ranking.Count>) returns (ok: bool)
    requires playList.Valid() && playList.storageId == ""
    modifies playList, playList.storage
    ensures playList.Valid()
    ensures playList.storage.entries == old(playList.storage.entries)
    ensures var names := Ranking.Keys(countArray);
      var added := Ranking.TranslatedPrefix(dictionary, names);
      && ok == Ranking.AllTranslated(dictionary, names)
      && playList.Names() == old(playList.Names()) + added
      && playList.items == old(playList.items) + Numbered(added, old(playList.itemIndex))
      && playList.itemIndex == old(playList.itemIndex) + |added|
  {
    ghost var names := Ranking.Keys(countArray);
    ghost var added: seq<string> := [];
    ok := true;
    for k := 0 to |countArray|
      invariant playList.storage.entries == old(playList.storage.entries)
      invariant Ranking.TranslatedPrefix(dictionary, names) == added + Ranking.TranslatedPrefix(dictionary, names[k..])
      invariant Ranking.AllTranslated(dictionary, names) == Ranking.AllTranslated(dictionary, names[k..])
      invariant playList.items == old(playList.items) + Numbered(added, old(playList.itemIndex))
      invariant playList.itemIndex == old(playList.itemIndex) + |added|
    {
      var value := AddTranslation(playList, dictionary, countArray, k, added, old(playList.items), old(playList.itemIndex));
      if value.None? {
        ok := false;
        NumberedIndexed(old(playList.items), old(playList.itemIndex), added);
        return;
      }
      added := added + [value.value];
    }
    assert names[|countArray|..] == [];
    NumberedIndexed(old(playList.items), old(playList.itemIndex), added);
  }

  /** One turn of that loop: the translation of ranked name k, added to the list when there is one. */
  method AddTranslation(playList: PlayList, dictionary: Option<Ranking.Dictionary>, countArray: seq<Ranking.Count>, k: nat,
                        ghost added: seq<string>, ghost start: seq<Play>, ghost counter: int)
      returns (value: Option<string>)
    requires k < |countArray| && Indexed(start, counter) && playList.storageId == ""
    requires var names := Ranking.Keys(countArray);
      && Ranking.TranslatedPrefix(dictionary, names) == added + Ranking.TranslatedPrefix(dictionary, names[k..])
      && Ranking.AllTranslated(dictionary, names) == Ranking.AllTranslated(dictionary, names[k..])
    requires playList.items == start + Numbered(added, counter) && playList.itemIndex == counter + |added|
    modifies playList, playList.storage
    ensures playList.storage.entries == old(playList.storage.entries)
    ensures var names := Ranking.Keys(countArray);
      && (value.None? ==>
        && Ranking.TranslatedPrefix(dictionary, names) == added && !Ranking.AllTranslated(dictionary, names)
        && playList.items == start + Numbered(added, counter) && playList.itemIndex == counter + |added|)
      && (value.Some? ==>
        && Ranking.TranslatedPrefix(dictionary, names) == (added + [value.value]) + Ranking.TranslatedPrefix(dictionary, names[k + 1..])
        && Ranking.AllTranslated(dictionary, names) == Ranking.AllTranslated(dictionary, names[k + 1..])
        && playList.items == start + Numbered(added + [value.value], counter)
        && playList.itemIndex == counter + |added + [value.value]|)
  {
    ghost var names := Ranking.Keys(countArray);
    assert names[k] == countArray[k].name;
    NumberedIndexed(start, counter, added);
    Ranking.TranslatedStep(dictionary, names, k, added);
    var translation := Ranking.GetTranslation(dictionary, countArray[k].name);
    if translation.None? {
      value := None;
    } else {
      value := Some(translation.value.value);
      playList.AddAfter(added, value.value, start, counter);
    }
  }
}
