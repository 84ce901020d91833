/**
 * The lists of the older revision (src/html/script.js): one base class,
 * AbstractItemList, specialised by `PlayList` and `PlayListList`, and the
 * `Player` that drives them. Unlike the newer revision it removes and finds
 * items by index, reorders by swapping neighbours, restarts the counter at
 * 0 on `clear`, does not page, and lists raw reference names as search results.
 */
module LegacyPlayLists {
  import opened Options
  import opened ItemSequences
  import opened Persistence
  import opened Plays
  import Escaping
  import Ranking

  // ---------------------------------------------------------------------------
  // A playlist
  // ---------------------------------------------------------------------------

  class PlayList {
    const storage: LocalStorage
    /** The store key; "" for the search result list, which is never stored. */
    const storageId: string
    const name: string
    /** The index the playlist list gave this playlist. */
    const index: int
    var items: seq<Play>
    var itemIndex: int

    ghost predicate Valid()
      reads this
    {
      Indexed(items, itemIndex)
    }

    function Names(): seq<string>
      reads this
    {
      NamesOf(items)
    }

    function Indices(): seq<int>
      reads this
    {
      IndicesOf(items)
    }

    constructor (storage: LocalStorage, storageId: string, name: string, index: int)
      ensures this.storage == storage && this.storageId == storageId
      ensures this.name == name && this.index == index
      ensures items == [] && itemIndex == 0 && Valid()
    {
      this.storage := storage;
      this.storageId := storageId;
      this.name := name;
      this.index := index;
      items := [];
      itemIndex := 0;
    }

    /** `store`: write the names under the key, remove the key of an empty list, skip a list without a key. */
    method Store()
      modifies storage
      ensures storage.entries == Stored(old(storage.entries), storageId, Names())
    {
      if storageId != "" {
        if |items| > 0 {
          storage.SetItem(storageId, ToString(Names()));
        } else {
          storage.RemoveItem(storageId);
        }
      }
    }

    /** `clear`: empty the list, restart the counter at 0, and drop the key. */
    method Clear()
      modifies this, storage
      ensures items == [] && itemIndex == 0 && Valid()
      ensures storage.entries == Stored(old(storage.entries), storageId, [])
    {
      items := [];
      itemIndex := 0;
      Store();
    }

    /** `addItem`: append a play with the counter's value, advance the counter, store. */
    method AddItem(playName: string)
      requires Valid()
      modifies this, storage
      ensures Valid()
      ensures items == old(items) + [Play(playName, old(itemIndex))] && itemIndex == old(itemIndex) + 1
      ensures Names() == old(Names()) + [playName]
      ensures storage.entries == Stored(old(storage.entries), storageId, Names())
    {
      NumberedIndexed(items, itemIndex, [playName]);
      items := items + [Play(playName, itemIndex)];
      itemIndex := itemIndex + 1;
      Store();
    }

    /** The loop of `load`: add each name through `addItem`, in order. */
    method AddItems(names: seq<string>)
      requires Valid()
      modifies this, storage
      ensures Valid()
      ensures items == old(items) + Numbered(names, old(itemIndex))
      ensures itemIndex == old(itemIndex) + |names|
      ensures Names() == old(Names()) + names
      ensures storage.entries == (if names == [] then old(storage.entries) else Stored(old(storage.entries), storageId, Names()))
    {
      for k := 0 to |names|
        invariant Valid()
        invariant items == old(items) + Numbered(names[..k], old(itemIndex))
        invariant itemIndex == old(itemIndex) + k
        invariant storage.entries == if k == 0 then old(storage.entries) else Stored(old(storage.entries), storageId, Names())
      {
        AddNext(names, k, old(items), old(itemIndex), old(storage.entries));
      }
      assert names[..|names|] == names;
      NumberedIndexed(old(items), old(itemIndex), names);
    }

    /** One turn of that loop: add name k after the k names already added. */
    method AddNext(names: seq<string>, k: nat, ghost start: seq<Play>, ghost counter: int, ghost entries: map<string, string>)
      requires Valid() && k < |names|
      requires items == start + Numbered(names[..k], counter) && itemIndex == counter + k
      requires storage.entries == if k == 0 then entries else Stored(entries, storageId, Names())
      modifies this, storage
      ensures Valid()
      ensures items == start + Numbered(names[..k + 1], counter) && itemIndex == counter + k + 1
      ensures storage.entries == Stored(entries, storageId, Names())
    {
      assert names[..k + 1] == names[..k] + [names[k]];
      NumberedExtend(start, names[..k], names[k], counter);
      AddItem(names[k]);
    }

    /**
     * `load`: add the stored names in stored order. `ok` is false where
     * `JSON.parse` throws, and then nothing has changed.
     */
    method Load() returns (ok: bool)
      requires Valid()
      modifies this, storage
      ensures Valid()
      ensures ok == StoredNames(old(storage.entries), storageId).Some?
      ensures !ok ==> items == old(items) && itemIndex == old(itemIndex) && storage.entries == old(storage.entries)
      ensures ok ==> var names := StoredNames(old(storage.entries), storageId).value;
        && items == old(items) + Numbered(names, old(itemIndex))
        && itemIndex == old(itemIndex) + |names|
        && Names() == old(Names()) + names
        && storage.entries == (if names == [] then old(storage.entries) else Stored(old(storage.entries), storageId, Names()))
      ensures ok && old(items) == [] ==> storage.entries == old(storage.entries)
    {
      ok := true;
      if storageId != "" {
        var nameItem := storage.GetItem(storageId);
        if nameItem.Some? && nameItem.value != "" {
          var nameArray := ParseNames(nameItem.value);
          if nameArray.None? {
            ok := false;
            return;
          }
          ghost var entries := storage.entries;
          AddItems(nameArray.value);
          if old(items) == [] {
            assert Names() == nameArray.value;
            RestoreLoaded(entries, storageId);
          }
        }
      }
    }

    /** `getItem`: the first play whose index is strictly equal, or `undefined`; the scan stops at the first match. */
    method GetItem(playIndex: int) returns (result: Option<Play>)
      ensures result.Some? <==> playIndex in Indices()
      ensures result.Some? ==> result.value == items[PositionOf(Indices(), playIndex)]
    {
      result := None;
      var position := 0;
      while result.None? && position < |items|
        invariant 0 <= position <= |items|
        invariant result.None? ==> playIndex !in Indices()[..position]
        invariant result.Some? ==> (0 < position && playIndex !in Indices()[..position - 1]
          && items[position - 1].index == playIndex && result.value == items[position - 1])
      {
        if items[position].index == playIndex {
          result := Some(items[position]);
        }
        assert Indices()[..position + 1] == Indices()[..position] + [items[position].index];
        position := position + 1;
      }
      if result.None? {
        assert Indices()[..position] == Indices();
      } else {
        assert Indices()[position - 1] == playIndex;
      }
    }

    /** `getItemPosition`: the first position whose play has that index, else -1. */
    method GetItemPosition(playIndex: int) returns (result: int)
      ensures result == PositionOf(Indices(), playIndex)
    {
      result := FindPosition(Indices(), playIndex);
    }

    /** `removeItem`: delete the play of that index and store; an unknown index changes nothing. */
    method RemoveItem(playIndex: int)
      requires Valid()
      modifies this, storage
      ensures Valid() && itemIndex == old(itemIndex) && playIndex !in Indices()
      ensures var position := PositionOf(old(Indices()), playIndex);
        if position == -1 then
          items == old(items) && storage.entries == old(storage.entries)
        else
          items == RemoveAt(old(items), position) && storage.entries == Stored(old(storage.entries), storageId, Names())
    {
      var itemPosition := GetItemPosition(playIndex);
      if itemPosition != -1 {
        RemoveAtIndexed(items, itemIndex, itemPosition);
        items := RemoveAt(items, itemPosition);
        Store();
      }
    }

    /** `upgradeItem`: swap the play of that index with its predecessor and store; nothing at the first position. */
    method UpgradeItem(playIndex: int)
      requires Valid()
      modifies this, storage
      ensures Valid() && itemIndex == old(itemIndex)
      ensures var position := PositionOf(old(Indices()), playIndex);
        if position == -1 || position == 0 then
          items == old(items) && storage.entries == old(storage.entries)
        else
          items == Swapped(old(items), position, position - 1) && storage.entries == Stored(old(storage.entries), storageId, Names())
    {
      var itemPosition := GetItemPosition(playIndex);
      if itemPosition != -1 && itemPosition > 0 {
        SwappedIndexed(items, itemIndex, itemPosition, itemPosition - 1);
        var item := items[itemPosition];
        items := items[itemPosition := items[itemPosition - 1]];
        items := items[itemPosition - 1 := item];
        Store();
      }
    }

    /** `downgradeItem`: swap the play of that index with its successor and store; nothing at the last position. */
    method DowngradeItem(playIndex: int)
      requires Valid()
      modifies this, storage
      ensures Valid() && itemIndex == old(itemIndex)
      ensures var position := PositionOf(old(Indices()), playIndex);
        if position == -1 || position == |old(items)| - 1 then
          items == old(items) && storage.entries == old(storage.entries)
        else
          items == Swapped(old(items), position, position + 1) && storage.entries == Stored(old(storage.entries), storageId, Names())
    {
      var itemPosition := GetItemPosition(playIndex);
      if itemPosition != -1 && itemPosition < |items| - 1 {
        SwappedIndexed(items, itemIndex, itemPosition, itemPosition + 1);
        var item := items[itemPosition];
        items := items[itemPosition := items[itemPosition + 1]];
        items := items[itemPosition + 1 := item];
        Store();
      }
    }
  }

  // ---------------------------------------------------------------------------
  // The list of playlists
  // ---------------------------------------------------------------------------

  function StorageIds(playLists: seq<PlayList>): seq<string>
  {
    seq(|playLists|, i requires 0 <= i < |playLists| => playLists[i].storageId)
  }

  function ListNames(playLists: seq<PlayList>): seq<string>
  {
    seq(|playLists|, i requires 0 <= i < |playLists| => playLists[i].name)
  }

  function ListIndices(playLists: seq<PlayList>): seq<int>
  {
    seq(|playLists|, i requires 0 <= i < |playLists| => playLists[i].index)
  }

  class PlayListList {
    const storage: LocalStorage
    const storageId: string
    /** Prepended to a playlist's name to form that playlist's store key. */
    const storagePrefix: string
    var items: seq<PlayList>
    var itemIndex: int

    /** Every playlist belongs here; indices are distinct. */
    ghost predicate Valid()
      reads this, items
    {
      && (forall i :: 0 <= i < |items| ==> ChildOf(items[i]))
      && (forall i, j :: 0 <= i < j < |items| ==> items[i].index != items[j].index)
    }

    /** A playlist of this list: in the same store, keyed by prefix and name, indexed below the counter, valid. */
    ghost predicate ChildOf(playList: PlayList)
      reads this, playList
    {
      && playList.storage == storage
      && playList.storageId == storagePrefix + playList.name
      && playList.index < itemIndex
      && playList.Valid()
    }

    function Names(): seq<string>
      reads this
    {
      ListNames(items)
    }

    function Indices(): seq<int>
      reads this
    {
      ListIndices(items)
    }

    /** The lists hold what the store held: the names under the list's key, each playlist's plays under its key. */
    ghost predicate LoadedFrom(entries: map<string, string>)
      reads this, items
    {
      && StoredNames(entries, storageId) == Some(Names())
      && forall i :: 0 <= i < |items| ==> StoredNames(entries, items[i].storageId) == Some(items[i].Names())
    }

    /** The constructor creates the empty list and loads it. */
    constructor (storage: LocalStorage, storageId: string, storagePrefix: string)
      modifies storage
      ensures this.storage == storage && this.storageId == storageId && this.storagePrefix == storagePrefix
      ensures Valid() && storage.entries == old(storage.entries)
      ensures forall i :: 0 <= i < |items| ==> fresh(items[i])
      ensures Loadable(old(storage.entries), storageId, storagePrefix) ==> LoadedFrom(old(storage.entries))
    {
      this.storage := storage;
      this.storageId := storageId;
      this.storagePrefix := storagePrefix;
      items := [];
      itemIndex := 0;
      new;
      var _ := Load();
    }

    method Store()
      modifies storage
      ensures storage.entries == Stored(old(storage.entries), storageId, Names())
    {
      if storageId != "" {
        if |items| > 0 {
          storage.SetItem(storageId, ToString(Names()));
        } else {
          storage.RemoveItem(storageId);
        }
      }
    }

    /** `addItem`: append a new, empty playlist keyed by prefix and name, with the counter's value, then store. */
    method AddItem(playListName: string)
      requires Valid()
      modifies this, storage
      ensures Valid()
      ensures |items| > 0 && items == old(items) + [items[|items| - 1]]
      ensures var playList := items[|items| - 1];
        && fresh(playList)
        && playList.storage == storage && playList.storageId == storagePrefix + playListName
        && playList.name == playListName && playList.index == old(itemIndex)
        && playList.items == [] && playList.itemIndex == 0
      ensures itemIndex == old(itemIndex) + 1
      ensures Names() == old(Names()) + [playListName]
      ensures storage.entries == Stored(old(storage.entries), storageId, Names())
    {
      var playList := new PlayList(storage, storagePrefix + playListName, playListName, itemIndex);
      items := items + [playList];
      itemIndex := itemIndex + 1;
      Store();
    }

    /** The loop of `load` over the stored names: add a playlist for each. */
    method AddItems(names: seq<string>)
      requires Valid()
      modifies this, storage
      ensures Valid()
      ensures |items| == |old(items)| + |names| && items[..|old(items)|] == old(items)
      ensures Names() == old(Names()) + names && itemIndex == old(itemIndex) + |names|
      ensures forall i :: |old(items)| <= i < |items| ==>
        fresh(items[i]) && items[i].items == [] && items[i].itemIndex == 0 && items[i].index == old(itemIndex) + i - |old(items)|
      ensures storage.entries == (if names == [] then old(storage.entries) else Stored(old(storage.entries), storageId, Names()))
    {
      for k := 0 to |names|
        invariant Valid()
        invariant |items| == |old(items)| + k && items[..|old(items)|] == old(items)
        invariant Names() == old(Names()) + names[..k] && itemIndex == old(itemIndex) + k
        invariant forall i :: |old(items)| <= i < |items| ==>
          fresh(items[i]) && items[i].items == [] && items[i].itemIndex == 0 && items[i].index == old(itemIndex) + i - |old(items)|
        invariant storage.entries == if k == 0 then old(storage.entries) else Stored(old(storage.entries), storageId, Names())
      {
        assert names[..k + 1] == names[..k] + [names[k]];
        AddItem(names[k]);
      }
      assert names[..|names|] == names;
    }

    /**
     * `load`: add a playlist for every stored name, then load each playlist.
     * `ok` is false where `JSON.parse` throws; the playlists after the one
     * that failed stay empty. Only called by the constructor, on the empty list.
     */
    method Load() returns (ok: bool)
      requires Valid() && items == []
      modifies this, storage
      ensures Valid() && storage.entries == old(storage.entries)
      ensures forall i :: 0 <= i < |items| ==> fresh(items[i])
      ensures ok == Loadable(old(storage.entries), storageId, storagePrefix)
      ensures ok ==> LoadedFrom(old(storage.entries))
    {
      ghost var entries := storage.entries;
      ok := LoadNames();
      if !ok {
        return;
      }
      ok := LoadItems();
      if !ok {
        ghost var k :| 0 <= k < |items| && StoredNames(entries, items[k].storageId).None?;
        assert items[k].storageId == storagePrefix + Names()[k];
      } else {
        forall k | 0 <= k < |Names()|
          ensures StoredNames(entries, storagePrefix + Names()[k]).Some?
        {
          assert items[k].storageId == storagePrefix + Names()[k];
        }
      }
    }

    /** The first half of `load`: a new, empty playlist for each stored name; false where `JSON.parse` throws. */
    method LoadNames() returns (ok: bool)
      requires Valid() && items == []
      modifies this, storage
      ensures Valid() && storage.entries == old(storage.entries)
      ensures forall i :: 0 <= i < |items| ==> fresh(items[i]) && items[i].items == []
      ensures ok == StoredNames(old(storage.entries), storageId).Some?
      ensures ok ==> StoredNames(old(storage.entries), storageId) == Some(Names())
    {
      ok := true;
      ghost var entries := storage.entries;
      if storageId != "" {
        var nameItem := storage.GetItem(storageId);
        if nameItem.Some? && nameItem.value != "" {
          var nameArray := ParseNames(nameItem.value);
          if nameArray.None? {
            ok := false;
            return;
          }
          AddItems(nameArray.value);
          assert Names() == nameArray.value;
          RestoreLoaded(entries, storageId);
          assert StoredNames(entries, storageId) == Some(Names());
        } else {
          assert Names() == [];
          assert StoredNames(entries, storageId) == Some(Names());
        }
      } else {
        assert Names() == [];
        assert StoredNames(entries, storageId) == Some(Names());
      }
    }

    /** The loop of `load` over the playlists: load each, stopping at the first whose text does not parse. */
    method LoadItems() returns (ok: bool)
      requires Valid()
      requires forall i :: 0 <= i < |items| ==> items[i].items == []
      modifies storage, items
      ensures Valid() && storage.entries == old(storage.entries)
      ensures ok == forall i :: 0 <= i < |items| ==> StoredNames(old(storage.entries), items[i].storageId).Some?
      ensures ok ==> forall i :: 0 <= i < |items| ==> StoredNames(old(storage.entries), items[i].storageId) == Some(items[i].Names())
    {
      ok := true;
      for k := 0 to |items|
        invariant Valid() && storage.entries == old(storage.entries)
        invariant forall i :: k <= i < |items| ==> items[i].items == []
        invariant forall i :: 0 <= i < k ==> StoredNames(old(storage.entries), items[i].storageId) == Some(items[i].Names())
      {
        var childOk := LoadChild(k);
        if !childOk {
          ok := false;
          return;
        }
      }
    }

    /** One turn of that loop: load the playlist at position k; no other playlist changes. */
    method LoadChild(k: nat) returns (ok: bool)
      requires Valid() && k < |items| && items[k].items == []
      modifies storage, items[k]
      ensures Valid() && storage.entries == old(storage.entries)
      ensures forall i :: 0 <= i < |items| && i != k ==> items[i].items == old(items[i].items)
      ensures ok == StoredNames(storage.entries, items[k].storageId).Some?
      ensures ok ==> StoredNames(storage.entries, items[k].storageId) == Some(items[k].Names())
    {
      var child := items[k];
      forall i | 0 <= i < |items| && i != k
        ensures items[i] != child
      {
        assert items[i].index != child.index;
      }
      ok := child.Load();
      if ok {
        assert child.Names() == StoredNames(storage.entries, child.storageId).value;
      }
    }

    /**
     * `clear`: clear every playlist, then the list itself; afterwards neither
     * the list's key nor any former playlist's key is in the store.
     */
    method Clear()
      requires Valid()
      modifies this, storage, items
      ensures items == [] && itemIndex == 0 && Valid()
      ensures forall i :: 0 <= i < |old(items)| ==> old(items)[i].items == [] && old(items)[i].itemIndex == 0
      ensures storage.entries == Stored(Removed(old(storage.entries), StorageIds(old(items))), storageId, [])
      ensures forall i :: 0 <= i < |old(items)| && old(items)[i].storageId != "" ==> old(items)[i].storageId !in storage.entries
      ensures storageId != "" ==> storageId !in storage.entries
    {
      ghost var playLists := items;
      ClearChildren();
      items := [];
      itemIndex := 0;
      Store();
      forall i | 0 <= i < |playLists| && playLists[i].storageId != ""
        ensures playLists[i].storageId !in storage.entries
      {
        assert StorageIds(playLists)[i] == playLists[i].storageId;
      }
    }

    /** The loop of `clear` over the playlists: clear each one, dropping its key. */
    method ClearChildren()
      requires Valid()
      modifies storage, items
      ensures forall i :: 0 <= i < |items| ==> items[i].items == [] && items[i].itemIndex == 0
      ensures storage.entries == Removed(old(storage.entries), StorageIds(items))
    {
      assert StorageIds(items[..0]) == [];
      for k := 0 to |items|
        invariant storage.entries == Removed(old(storage.entries), StorageIds(items[..k]))
        invariant forall i :: 0 <= i < k ==> items[i].items == [] && items[i].itemIndex == 0
      {
        RemovedStep(old(storage.entries), StorageIds(items[..k]), items[k].storageId);
        assert StorageIds(items[..k + 1]) == StorageIds(items[..k]) + [items[k].storageId];
        items[k].Clear();
      }
      assert items[..|items|] == items;
    }

    /** `getItem`: the first playlist whose index is strictly equal, or `undefined`. */
    method GetItem(playListIndex: int) returns (result: Option<PlayList>)
      ensures result.Some? <==> playListIndex in Indices()
      ensures result.Some? ==> result.value == items[PositionOf(Indices(), playListIndex)]
    {
      result := None;
      var position := 0;
      while result.None? && position < |items|
        invariant 0 <= position <= |items|
        invariant result.None? ==> playListIndex !in Indices()[..position]
        invariant result.Some? ==> (0 < position && playListIndex !in Indices()[..position - 1]
          && items[position - 1].index == playListIndex && result.value == items[position - 1])
      {
        if items[position].index == playListIndex {
          result := Some(items[position]);
        }
        assert Indices()[..position + 1] == Indices()[..position] + [items[position].index];
        position := position + 1;
      }
      if result.None? {
        assert Indices()[..position] == Indices();
      } else {
        assert Indices()[position - 1] == playListIndex;
      }
    }

    /** `getItemPosition`: the first position whose playlist has that index, else -1. */
    method GetItemPosition(playListIndex: int) returns (result: int)
      ensures result == PositionOf(Indices(), playListIndex)
    {
      result := FindPosition(Indices(), playListIndex);
    }

    /** `containsItem`: whether some playlist has that name; the scan stops at the first match. */
    method ContainsItem(playListName: string) returns (result: bool)
      ensures result <==> playListName in Names()
    {
      result := false;
      var position := 0;
      while !result && position < |items|
        invariant 0 <= position <= |items|
        invariant !result ==> playListName !in Names()[..position]
        invariant result ==> playListName in Names()
      {
        if items[position].name == playListName {
          result := true;
          assert Names()[position] == playListName;
        }
        assert Names()[..position + 1] == Names()[..position] + [items[position].name];
        position := position + 1;
      }
      if !result {
        assert Names()[..position] == Names();
      }
    }

    /** `removeItem`: delete the playlist of that index and store; its own key stays in the store. */
    method RemoveItem(playListIndex: int)
      requires Valid()
      modifies this, storage
      ensures Valid() && itemIndex == old(itemIndex) && playListIndex !in Indices()
      ensures forall i :: 0 <= i < |items| ==> items[i] in old(items)
      ensures var position := PositionOf(old(Indices()), playListIndex);
        if position == -1 then
          items == old(items) && storage.entries == old(storage.entries)
        else
          items == RemoveAt(old(items), position) && storage.entries == Stored(old(storage.entries), storageId, Names())
    {
      var itemPosition := GetItemPosition(playListIndex);
      if itemPosition != -1 {
        RemoveChild(itemPosition);
        Store();
      }
    }

    /** The `splice` of `removeItem` on the playlists: the removed playlist's index is gone, the others stay. */
    method RemoveChild(position: nat)
      requires Valid() && position < |items|
      modifies this
      ensures Valid() && itemIndex == old(itemIndex)
      ensures items == RemoveAt(old(items), position)
      ensures old(items)[position].index !in Indices()
      ensures forall i :: 0 <= i < |items| ==> items[i] in old(items)
    {
      ghost var before := items;
      items := RemoveAt(items, position);
      forall i | 0 <= i < |items|
        ensures items[i] == before[if i < position then i else i + 1]
      {
      }
      forall i, j | 0 <= i < j < |items|
        ensures items[i].index != items[j].index
      {
        assert items[i] == before[if i < position then i else i + 1];
        assert items[j] == before[if j < position then j else j + 1];
      }
      forall i | 0 <= i < |items|
        ensures Indices()[i] != before[position].index
      {
        assert items[i] == before[if i < position then i else i + 1];
      }
    }

    /** `upgradeItem`: swap the playlist of that index with its predecessor and store; nothing at the first position. */
    method UpgradeItem(playListIndex: int)
      requires Valid()
      modifies this, storage
      ensures Valid() && itemIndex == old(itemIndex)
      ensures forall i :: 0 <= i < |items| ==> items[i] in old(items)
      ensures var position := PositionOf(old(Indices()), playListIndex);
        if position == -1 || position == 0 then
          items == old(items) && storage.entries == old(storage.entries)
        else
          items == Swapped(old(items), position, position - 1) && storage.entries == Stored(old(storage.entries), storageId, Names())
    {
      var itemPosition := GetItemPosition(playListIndex);
      if itemPosition != -1 && itemPosition > 0 {
        SwapChildren(itemPosition, itemPosition - 1);
        Store();
      }
    }

    /** `downgradeItem`: swap the playlist of that index with its successor and store; nothing at the last position. */
    method DowngradeItem(playListIndex: int)
      requires Valid()
      modifies this, storage
      ensures Valid() && itemIndex == old(itemIndex)
      ensures forall i :: 0 <= i < |items| ==> items[i] in old(items)
      ensures var position := PositionOf(old(Indices()), playListIndex);
        if position == -1 || position == |old(items)| - 1 then
          items == old(items) && storage.entries == old(storage.entries)
        else
          items == Swapped(old(items), position, position + 1) && storage.entries == Stored(old(storage.entries), storageId, Names())
    {
      var itemPosition := GetItemPosition(playListIndex);
      if itemPosition != -1 && itemPosition < |items| - 1 {
        SwapChildren(itemPosition, itemPosition + 1);
        Store();
      }
    }

    /** The in-place swap of `upgradeItem` and `downgradeItem`, through a saved item. */
    method SwapChildren(position: nat, other: nat)
      requires Valid() && position < |items| && other < |items|
      modifies this
      ensures Valid() && itemIndex == old(itemIndex)
      ensures items == Swapped(old(items), position, other)
      ensures forall i :: 0 <= i < |items| ==> items[i] in old(items)
    {
      ghost var before := items;
      var item := items[position];
      items := items[position := items[other]];
      items := items[other := item];
      assert items == Swapped(before, position, other);
      forall i | 0 <= i < |items|
        ensures items[i] == before[if i == position then other else if i == other then position else i]
      {
      }
      forall i, j | 0 <= i < j < |items|
        ensures items[i].index != items[j].index
      {
        var i' := if i == position then other else if i == other then position else i;
        var j' := if j == position then other else if j == other then position else j;
        assert items[i] == before[i'] && items[j] == before[j'];
      }
    }
  }

  // ---------------------------------------------------------------------------
  // The player
  // ---------------------------------------------------------------------------

  /** The store key of the list of playlists. */
  const PlayListListId := "katube-playListList"
  /** The prefix of every playlist's store key. */
  const PlayListPrefix := "katube-playList-"

  /** The data half of `Player`: the list of playlists, the search result list, the current playlist and the dictionary. */
  class Player {
    const storage: LocalStorage
    const playListList: PlayListList
    /** The search results: a playlist without a store key, so never stored. */
    const resultPlayList: PlayList
    var playList: PlayList?
    var dictionary: Option<Ranking.Dictionary>

    ghost predicate Valid()
      reads this, playListList, playListList.items, resultPlayList, playList
    {
      && playListList.storage == storage && playListList.Valid()
      && playListList.storageId == PlayListListId && playListList.storagePrefix == PlayListPrefix
      && resultPlayList.storage == storage && resultPlayList.storageId == "" && resultPlayList.Valid()
      && resultPlayList !in playListList.items
      && (playList != null ==> playList.storage == storage && playList.Valid())
    }

    /** Creating the player loads the playlists; no playlist is current and no dictionary is loaded yet. */
    constructor (storage: LocalStorage)
      modifies storage
      ensures this.storage == storage && Valid()
      ensures storage.entries == old(storage.entries)
      ensures Loadable(old(storage.entries), PlayListListId, PlayListPrefix) ==> playListList.LoadedFrom(old(storage.entries))
      ensures resultPlayList.items == [] && playList == null && dictionary == None
    {
      this.storage := storage;
      playListList := new PlayListList(storage, PlayListListId, PlayListPrefix);
      resultPlayList := new PlayList(storage, "", "", -1);
      playList := null;
      dictionary := None;
    }

    /** The dictionary arrives: what the request's `onload` handler stores. */
    method LoadDictionary(loaded: Ranking.Dictionary)
      requires Valid()
      modifies this
      ensures Valid() && dictionary == Some(loaded) && playList == old(playList)
    {
      dictionary := Some(loaded);
    }

    /**
     * `createPlayList`: add a playlist under the escaped input unless a
     * playlist already has that name (an empty name included); names stay unique.
     */
    method CreatePlayList(input: string)
      requires Valid()
      modifies playListList, storage
      ensures Valid()
      ensures var name := Escaping.Escaped(input);
        if name !in old(playListList.Names()) then
          && |playListList.items| == |old(playListList.items)| + 1
          && playListList.items[..|old(playListList.items)|] == old(playListList.items)
          && fresh(playListList.items[|old(playListList.items)|])
          && playListList.items[|old(playListList.items)|].items == []
          && playListList.items[|old(playListList.items)|].index == old(playListList.itemIndex)
          && playListList.itemIndex == old(playListList.itemIndex) + 1
          && playListList.Names() == old(playListList.Names()) + [name]
          && storage.entries == Stored(old(storage.entries), PlayListListId, playListList.Names())
        else
          && playListList.items == old(playListList.items)
          && playListList.itemIndex == old(playListList.itemIndex)
          && storage.entries == old(storage.entries)
      ensures Distinct(old(playListList.Names())) ==> Distinct(playListList.Names())
    {
      var playListName := Escaping.EscapeName(input);
      var contained := playListList.ContainsItem(playListName);
      if !contained {
        playListList.AddItem(playListName);
        if Distinct(old(playListList.Names())) {
          DistinctAppend(old(playListList.Names()), playListName);
        }
      }
    }

    /** `removePlayList`, its data half. */
    method RemovePlayList(index: int)
      requires Valid()
      modifies playListList, storage
      ensures Valid() && playListList.itemIndex == old(playListList.itemIndex)
      ensures var position := PositionOf(old(playListList.Indices()), index);
        if position == -1 then
          playListList.items == old(playListList.items) && storage.entries == old(storage.entries)
        else
          && playListList.items == RemoveAt(old(playListList.items), position)
          && storage.entries == Stored(old(storage.entries), PlayListListId, playListList.Names())
    {
      playListList.RemoveItem(index);
    }

    /** `upgradePlayList`, its data half. */
    method UpgradePlayList(index: int)
      requires Valid()
      modifies playListList, storage
      ensures Valid() && playListList.itemIndex == old(playListList.itemIndex)
      ensures var position := PositionOf(old(playListList.Indices()), index);
        if position == -1 || position == 0 then
          playListList.items == old(playListList.items) && storage.entries == old(storage.entries)
        else
          && playListList.items == Swapped(old(playListList.items), position, position - 1)
          && storage.entries == Stored(old(storage.entries), PlayListListId, playListList.Names())
    {
      playListList.UpgradeItem(index);
    }

    /** `downgradePlayList`, its data half. */
    method DowngradePlayList(index: int)
      requires Valid()
      modifies playListList, storage
      ensures Valid() && playListList.itemIndex == old(playListList.itemIndex)
      ensures var position := PositionOf(old(playListList.Indices()), index);
        if position == -1 || position == |old(playListList.items)| - 1 then
          playListList.items == old(playListList.items) && storage.entries == old(storage.entries)
        else
          && playListList.items == Swapped(old(playListList.items), position, position + 1)
          && storage.entries == Stored(old(storage.entries), PlayListListId, playListList.Names())
    {
      playListList.DowngradeItem(index);
    }

    /** `setPlayList`, its data half: make the playlist of that index current. */
    method SetPlayList(index: int)
      requires Valid()
      modifies this
      ensures Valid() && dictionary == old(dictionary)
      ensures var position := PositionOf(playListList.Indices(), index);
        playList == (if position == -1 then null else playListList.items[position])
    {
      var item := playListList.GetItem(index);
      playList := if item.Some? then item.value else null;
    }

    /** `addPlay`: append a play to the playlist of that index, if there is one. */
    method AddPlay(index: int, playName: string)
      requires Valid()
      modifies storage, playListList.items
      ensures Valid()
      ensures var position := PositionOf(playListList.Indices(), index);
        if position == -1 then
          storage.entries == old(storage.entries)
        else
          var target := playListList.items[position];
          && target.items == old(target.items) + [Play(playName, old(target.itemIndex))]
          && target.itemIndex == old(target.itemIndex) + 1
          && storage.entries == Stored(old(storage.entries), target.storageId, target.Names())
      ensures forall i :: 0 <= i < |playListList.items| && i != PositionOf(playListList.Indices(), index) ==>
        unchanged(playListList.items[i])
    {
      var item := playListList.GetItem(index);
      if item.Some? {
        item.value.AddItem(playName);
      }
    }

    /** `removePlay`, its data half: remove the play of that index from the current playlist. */
    method RemovePlay(index: int)
      requires Valid() && playList != null
      modifies playList, storage
      ensures Valid() && playList.itemIndex == old(playList.itemIndex)
      ensures var position := PositionOf(old(playList.Indices()), index);
        if position == -1 then
          playList.items == old(playList.items) && storage.entries == old(storage.entries)
        else
          && playList.items == RemoveAt(old(playList.items), position)
          && storage.entries == Stored(old(storage.entries), playList.storageId, playList.Names())
    {
      playList.RemoveItem(index);
    }

    /** `upgradePlay`, its data half. */
    method UpgradePlay(index: int)
      requires Valid() && playList != null
      modifies playList, storage
      ensures Valid() && playList.itemIndex == old(playList.itemIndex)
      ensures var position := PositionOf(old(playList.Indices()), index);
        if position == -1 || position == 0 then
          playList.items == old(playList.items) && storage.entries == old(storage.entries)
        else
          && playList.items == Swapped(old(playList.items), position, position - 1)
          && storage.entries == Stored(old(storage.entries), playList.storageId, playList.Names())
    {
      playList.UpgradeItem(index);
    }

    /** `downgradePlay`, its data half. */
    method DowngradePlay(index: int)
      requires Valid() && playList != null
      modifies playList, storage
      ensures Valid() && playList.itemIndex == old(playList.itemIndex)
      ensures var position := PositionOf(old(playList.Indices()), index);
        if position == -1 || position == |old(playList.items)| - 1 then
          playList.items == old(playList.items) && storage.entries == old(storage.entries)
        else
          && playList.items == Swapped(old(playList.items), position, position + 1)
          && storage.entries == Stored(old(storage.entries), playList.storageId, playList.Names())
    {
      playList.DowngradeItem(index);
    }

    /**
     * `searchPlay` without its DOM read and render: rank the query's
     * references, clear the result list (its counter restarts at 0), add the
     * ranked names as they are, and make the result list current.
     */
    method SearchPlay(query: string)
      requires Valid()
      modifies this, resultPlayList, storage
      ensures Valid() && storage.entries == old(storage.entries) && dictionary == old(dictionary)
      ensures resultPlayList.Names() == Ranking.RankedNames(dictionary, query)
      ensures resultPlayList.items == Numbered(Ranking.RankedNames(dictionary, query), 0)
      ensures playList == resultPlayList
    {
      var countArray := Ranking.RankQuery(dictionary, query);
      resultPlayList.Clear();
      AddNames(countArray);
      playList := resultPlayList;
    }

    /** The last loop of `searchPlay`: add each ranked name. */
    method AddNames(countArray: seq<Ranking.Count>)
      requires resultPlayList.Valid() && resultPlayList.storageId == ""
      modifies resultPlayList, resultPlayList.storage
      ensures resultPlayList.Valid()
      ensures resultPlayList.storage.entries == old(resultPlayList.storage.entries)
      ensures resultPlayList.Names() == old(resultPlayList.Names()) + Ranking.Keys(countArray)
      ensures resultPlayList.items == old(resultPlayList.items) + Numbered(Ranking.Keys(countArray), old(resultPlayList.itemIndex))
    {
      ghost var names := Ranking.Keys(countArray);
      for k := 0 to |countArray|
        invariant resultPlayList.Valid()
        invariant resultPlayList.storage.entries == old(resultPlayList.storage.entries)
        invariant resultPlayList.items == old(resultPlayList.items) + Numbered(names[..k], old(resultPlayList.itemIndex))
        invariant resultPlayList.itemIndex == old(resultPlayList.itemIndex) + k
      {
        NumberedStep(names, old(resultPlayList.itemIndex), k);
        resultPlayList.AddItem(countArray[k].name);
      }
      assert names[..|countArray|] == names;
      NumberedIndexed(old(resultPlayList.items), old(resultPlayList.itemIndex), names);
    }
  }
}
