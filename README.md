# katube playlist manager — a verified model of its list logic

katube is a static web page that plays summarised video files. The user keeps playlists in the browser's
`localStorage`. Each playlist is stored under its own key as a comma-separated list of quoted play names. A
list of playlists is stored the same way under `katube-playListList`. Each playlist has a stable integer
index, and each play inside a playlist has one too. The index comes from a counter that moves forward with every
item added; only `clear` resets it (to -1 in the newer revision, to 0 in the older).
The page also searches a tag dictionary: the query's words select tags, each tag's references are summed per
file, and the files are listed by decreasing count.

The project models two revisions of the page script:

- `src/main/html/script.js` (newer). This is the `ItemList` → `NamedItemList` → `IndexedItemList` →
  `PaginatedItemList` chain, `PlayList`, `PlayListList`, and the data half of the managers (creating, moving
  and removing playlists, adding, moving and removing plays, searching). The managers are collapsed into one
  `SearchManager` class.
- `src/html/script.js` (older). This is `AbstractItemList`, `PlayList`, `PlayListList` and the data half of
  `Player`. Plays and playlists are removed by index and reordered by swapping with a neighbour. The counter
  restarts at 0 on `clear`.

Modules:

- `Options`: the `Option` type.
- `ItemSequences`:
  - first-match lookup (`PositionOf`, proved equal to the scanning loop);
  - removal of one slot;
  - JavaScript's truncating `%` and the wrap-around of `shiftItemPosition`;
  - the in-place move of `moveItem` (its two shifting loops proved against `Moved`);
  - the neighbour swap of the older revision.
- `Persistence`:
  - `localStorage` as a class over a map;
  - the `toString` fold;
  - a parser for exactly the format `toString` writes (the `JSON.parse('[' + s + ']')` of `load`), with
    round trips in both directions;
  - the effect of `store` on the map.
- `Plays`: the play record and the indexing rule every indexed list keeps (indices distinct and below the
  counter), with lemmas that append, move, remove and swap keep it.
- `Escaping`: `escapeName`, the same in both revisions.
- `Ranking`:
  - `getTag` and `getTranslation`;
  - the word split and ASCII lower-casing;
  - the insertion-ordered `Map` of counts;
  - the sort by decreasing count (stable);
  - the translation of ranked names.
- `PlayLists`: the newer revision's classes, as Dafny classes with `modifies` frames.
- `LegacyPlayLists`: the older revision's classes.

Three stand-ins are used in the model:

- A store key of `""` stands for the falsy `undefined` key of the search result list, which is never stored.
- A `JSON.parse` that throws becomes a method returning `ok == false`. When it fails, what had been done
  before the throw stays done.
- Loading the dictionary over the network becomes a method that receives the parsed dictionary.

## Model

| member | source | states |
|---|---|---|
| ItemSequences.PositionOf | src/main/html/script.js:163-173 | the first position holding the key, -1 exactly when the key is absent, and no earlier occurrence |
| ItemSequences.FindPosition | src/main/html/script.js:203-213 | the scan that stops at the first match returns `PositionOf` of the keys |
| ItemSequences.DistinctAppend | src/main/html/script.js:373-375 | appending a name not yet present keeps the names free of repeats (what the uniqueness check of `createPlayList` buys) |
| ItemSequences.RemoveAt | src/main/html/script.js:86 | `splice(position, 1)`: one element shorter, elements before kept, elements after shifted down by one, and the same multiset less the removed element |
| ItemSequences.JsRemainder | src/main/html/script.js:36 | JavaScript's `%`: magnitude below the divisor, the sign of the dividend (or zero), and it differs from the dividend by a multiple of the divisor |
| ItemSequences.ShiftPosition | src/main/html/script.js:24-44 | -1 exactly for an empty list, otherwise a position inside the list equal to the floored modulo of the (relative) target |
| ItemSequences.FlooredRemainder | src/main/html/script.js:37-41 | moving a negative truncated remainder up by the length gives the floored remainder |
| ItemSequences.DivisionUnique | src/main/html/script.js:36 | a quotient and a remainder in [0, n) are the unique ones |
| ItemSequences.ShiftExamples | src/main/html/script.js:24-44 | on a 5-item list: a relative shift of -1 from position 2 lands on 1, an absolute 0 lands on 0, an absolute -1 lands on 4, and +1 from the last slot wraps to 0 |
| ItemSequences.Moved | src/main/html/script.js:56-70 | same length, and the element taken from the source position lands at the target |
| ItemSequences.MovedAt | src/main/html/script.js:56-70 | each position of a moved array holds the element of its source position |
| ItemSequences.MovedSourceInjective | src/main/html/script.js:56-70 | no two positions of a moved array take the same source |
| ItemSequences.MovedPermutation | src/main/html/script.js:56-70 | a move is a permutation |
| ItemSequences.MoveWithin | src/main/html/script.js:54-70 | the two shifting loops put the saved element at the target, shift the elements in between by one toward the vacated slot, keep everything else, and equal `Moved` |
| ItemSequences.Swapped | src/html/script.js:113-116 | the two slots exchanged, every other slot kept, the same multiset |
| Persistence.LocalStorage.GetItem | src/main/html/script.js:134 | the stored value, or nothing for an absent key |
| Persistence.LocalStorage.SetItem | src/main/html/script.js:124 | the map with the key set to the value |
| Persistence.LocalStorage.RemoveItem | src/main/html/script.js:126 | the map without the key |
| Persistence.ToString | src/main/html/script.js:106-118 | the fold with a ", " separator equals the joined quoted names, and is empty exactly for an empty list |
| Persistence.ParseString | src/main/html/script.js:137 | a parsed string literal is a storable name followed by its closing quote and the rest of the text |
| Persistence.ParseQuoted | src/main/html/script.js:137 | a storable name followed by a quote parses back to the name and the rest |
| Persistence.ParseQuotedTail | src/main/html/script.js:137 | a quoted name followed by the separated tail parses to the name and the tail's names |
| Persistence.ParseQuotedAlone | src/main/html/script.js:137 | one quoted storable name alone parses to that one name |
| Persistence.ParseQuotedSeparated | src/main/html/script.js:137 | a quoted storable name, ", " and a text that parses, parse to the name followed by that text's names |
| Persistence.ParseQuotedNext | src/main/html/script.js:137 | a quoted storable name in front of a separated tail that parses adds that name in front of its names |
| Persistence.ParsedHead | src/main/html/script.js:137 | a text that parses is a quoted first name followed by nothing, or by ", " and a text that parses to the other names |
| Persistence.ParseNames | src/main/html/script.js:137 | a text that parses yields at least one name, and every name is storable |
| Persistence.AppendNamesTail | src/main/html/script.js:106-118 | after a non-empty prefix, the fold appends ", " and a quoted name for every name (the same fold as src/html/script.js:13-25) |
| Persistence.StoredEffect | src/main/html/script.js:121-129 | storing touches only the list's own key; with a key, the key holds a non-empty text exactly when the list has names |
| Persistence.StoredNames | src/main/html/script.js:132-144 | the names loaded are storable; without a key or without an entry nothing is loaded |
| Persistence.ParsedJoined | src/main/html/script.js:106-118 | a text that parses is the joined quoted names it yields |
| Persistence.JoinedCons | src/main/html/script.js:106-118 | the text of two or more names is the first quoted, ", ", then the text of the rest |
| Persistence.ParseJoined | src/main/html/script.js:121-144 | the text `store` writes for storable names parses back to those names (`load` after `store`) |
| Persistence.JoinedParse | src/main/html/script.js:121-144 | a text that parses is, name for name, what `store` writes for the parsed names (`store` after `load`) |
| Persistence.StoreLoadRoundTrip | src/main/html/script.js:121-144 | what `store` leaves under a key, `load` reads back unchanged |
| Persistence.RestoreLoaded | src/main/html/script.js:121-144 | storing what was just loaded leaves the store as it was |
| Persistence.Removed | src/main/html/script.js:307-313 | the store after every playlist is cleared: none of their keys left, every other entry kept |
| Persistence.RemovedStep | src/main/html/script.js:307-313 | clearing one more playlist removes one more key |
| Plays.NumberedIndexed | src/main/html/script.js:194-200 | adding names through `addItem` keeps indices distinct and below the counter, and appends exactly those names |
| Plays.NumberedStep | src/main/html/script.js:194-200 | adding one more name appends one play with the next index |
| Plays.NumberedAppend | src/main/html/script.js:194-200 | the same, for a name appended at the end |
| Plays.NumberedExtend | src/main/html/script.js:194-200 | after earlier plays, one more numbered name extends the numbered run by one play with the next index |
| Plays.NumberedConsecutive | src/main/html/script.js:194-200 | the plays added after a clear carry consecutive, strictly increasing indices |
| Plays.IndexedLookup | src/main/html/script.js:203-226 | within a list that keeps the indexing rule, the lookup by a play's index finds that play's position |
| Plays.MovedIndexed | src/main/html/script.js:47-77 | a move keeps the indexing rule |
| Plays.RemoveAtIndexed | src/main/html/script.js:80-92 | a removal keeps the indexing rule, and the removed index is no longer found |
| Plays.SwappedIndexed | src/html/script.js:110-135 | a swap keeps the indexing rule |
| Escaping.Escaped | src/main/html/script.js:362 | same length; every character is in the allowed set; a character is kept exactly when it is allowed, and otherwise becomes '?' |
| Escaping.EscapeName | src/main/html/script.js:358-368 | same length, each character kept when it is in the allowed set and replaced by '?' otherwise |
| Escaping.EscapedIdempotent | src/main/html/script.js:358-368 | escaping twice is escaping once |
| Escaping.EscapedStorable | src/main/html/script.js:358-368 | an escaped name holds no quote or backslash, so the stored format carries it unchanged |
| Escaping.EscapedRejects | src/html/script.js:230-240 | quote, backslash, apostrophe, comma, full stop, underscore and 'Y' are replaced; 'y' and '?' are kept |
| Ranking.Split | src/main/html/script.js:757 | `split(' ')`: at least one part, and no part contains the separator |
| Ranking.SplitJoin | src/main/html/script.js:757 | joining the parts with the separator gives back the query |
| Ranking.ToLower | src/main/html/script.js:762 | same length, each upper-case ASCII letter becomes its lower-case letter, every other character kept |
| Ranking.FindTag | src/main/html/script.js:724-737 | a tag exactly when a dictionary is loaded and has a tag of that name; the tag found has that name |
| Ranking.GetTag | src/main/html/script.js:724-737 | the loop with `break` returns `FindTag` |
| Ranking.FindTranslation | src/main/html/script.js:740-753 | a translation exactly when a dictionary is loaded and has that key; the one found has that key |
| Ranking.GetTranslation | src/main/html/script.js:740-753 | the loop with `break` returns `FindTranslation` |
| Ranking.Accumulate | src/main/html/script.js:761-774 | the nested loops build the count map `CountTokens` specifies |
| Ranking.AddTagReferences | src/main/html/script.js:765-773 | the inner loop over one tag's references builds the map `AddReferences` specifies |
| Ranking.AddReferences | src/main/html/script.js:765-773 | the inner loop never drops an entry and adds at most one per reference |
| Ranking.CountTokens | src/main/html/script.js:761-775 | the outer loop never drops an entry |
| Ranking.AddReferencesAppend | src/main/html/script.js:765-773 | adding two runs of references is adding one then the other |
| Ranking.CountTokensMatched | src/main/html/script.js:761-774 | the count map is the empty map with every matched tag's references added in order |
| Ranking.PositionOfAppend | src/main/html/script.js:768-772 | appending a new key leaves every other key's position alone |
| Ranking.BumpEffect | src/main/html/script.js:766-772 | one reference adds its count to its name (appending the name when new) and leaves every other name alone |
| Ranking.AddReferencesKeys | src/main/html/script.js:765-773 | the keys after a tag's references are the old keys followed by the new names in first-seen order |
| Ranking.AddReferencesCount | src/main/html/script.js:765-773 | each name's count grows by the weight of its references |
| Ranking.AddReferencesPresent | src/main/html/script.js:765-773 | a name has an entry afterwards exactly when it had one or is referenced |
| Ranking.AddReferencesEffect | src/main/html/script.js:765-773 | the keys are the old keys followed by the new names in first-seen order, each count grows by the name's weight, and a name is present exactly when it was or is referenced |
| Ranking.AppendNewDistinct | src/main/html/script.js:768-772 | the key order is free of repeats and holds exactly the seen and the new names |
| Ranking.EntryCount | src/main/html/script.js:776-778 | with distinct keys, reading an entry's key from the map gives that entry's count |
| Ranking.CountsCharacterized | src/main/html/script.js:756-778 | the count entries are the referenced names in first-seen order, each once, each with its total weight |
| Ranking.UnmatchedTokenIgnored | src/main/html/script.js:762-763 | a word that names no tag changes no count |
| Ranking.NoDictionaryNoCounts | src/main/html/script.js:727 | without a dictionary no file is counted |
| Ranking.InsertByCount | src/main/html/script.js:781 | insertion makes the list one entry longer |
| Ranking.SortByCount | src/main/html/script.js:781 | the sort keeps the number of entries |
| Ranking.InsertByCountPermutation | src/main/html/script.js:781 | insertion adds exactly the one entry |
| Ranking.InsertByCountSorted | src/main/html/script.js:781 | insertion into a list sorted by decreasing count keeps it sorted |
| Ranking.InsertByCountStable | src/main/html/script.js:781 | insertion places the entry before the entries of the same count that were already in the list |
| Ranking.InsertByCountKeys | src/main/html/script.js:781 | insertion adds exactly the entry's name, and a new name keeps the names distinct |
| Ranking.DistinctCons | src/main/html/script.js:781 | a list with a head is free of repeats exactly when the head is new and the tail is free of repeats |
| Ranking.SortByCountSorted | src/main/html/script.js:781 | the sort by `second[1] - first[1]` returns a permutation sorted by decreasing count |
| Ranking.SortByCountStable | src/main/html/script.js:781 | entries of equal count keep their relative (insertion) order, as the stable `Array.prototype.sort` does |
| Ranking.SortByCountKeys | src/main/html/script.js:781 | sorting keeps the set of names and their distinctness |
| Ranking.RankedCharacterized | src/main/html/script.js:756-781 | the ranked list names every referenced file once with its total weight, is sorted by decreasing weight, and keeps first-seen order among equal weights |
| Ranking.Ranked | src/main/html/script.js:756-781 | the ranking is sorted by decreasing count and is a permutation of the count entries |
| Ranking.RankedNames | src/html/script.js:484-514 | the names added to the result list are free of repeats and are exactly the names the query's tags reference |
| Ranking.CopyEntries | src/main/html/script.js:777-779 | the array holds the map's entries in order |
| Ranking.RankQuery | src/main/html/script.js:757-781 | split, count, copy and sort produce `Ranked` |
| Ranking.TranslatedPrefix | src/main/html/script.js:785-787 | no more translations than ranked names |
| Ranking.TranslatedPrefixCons | src/main/html/script.js:785-787 | a first name without a translation stops the loop; otherwise its translation heads the rest |
| Ranking.AllTranslatedCons | src/main/html/script.js:785-787 | every name is translated exactly when the first is and every later one is |
| Ranking.TranslatedStep | src/main/html/script.js:785-787 | one turn of the loop: a name without a translation ends the result and means not every name is translated; otherwise its translation joins the result and the rest decides |
| Ranking.TranslatedPrefixComplete | src/main/html/script.js:785-787 | the loop gets through every name exactly when every name has a translation, and then lists each name's translation in order |
| PlayLists.PageCount | src/main/html/script.js:240-242 | `Math.ceil(length / 20)`: enough pages for the items, and no empty last page |
| PlayLists.Page | src/main/html/script.js:245-253 | at most 20 items, exactly 20 before the last page, none beyond the last |
| PlayLists.Pages | src/main/html/script.js:245-253 | the first pages hold the smaller of 20 items per page and the list's length |
| PlayLists.PagesPrefix | src/main/html/script.js:245-253 | the first pages, concatenated, are the list's prefix of that many pages |
| PlayLists.PagesCover | src/main/html/script.js:240-253 | all pages together are the whole list, in order |
| PlayLists.PlayList.constructor | src/main/html/script.js:271-277 | an empty list with counter 0, under the given key and name |
| PlayLists.PlayList.Store | src/main/html/script.js:121-129 | the store afterwards is `Stored` of the names: written under the key, the key removed for an empty list, untouched without a key |
| PlayLists.PlayList.Clear | src/main/html/script.js:187-191 | the list is empty, the counter is -1, and the key is removed from the store |
| PlayLists.PlayList.AddItem | src/main/html/script.js:280-282 | appends a play with the counter's value, advances the counter, keeps indices distinct, stores the names |
| PlayLists.PlayList.AddItems | src/main/html/script.js:139-141 | appends the names as consecutively numbered plays |
| PlayLists.PlayList.AddNext | src/main/html/script.js:139-141 | one turn of that loop: the numbered run of names grows by the next name, and the names are stored |
| PlayLists.PlayList.AddAfter | src/main/html/script.js:280-282 | `addItem` after a numbered run: the run grows by one name with the next index, and the names are stored |
| PlayLists.PlayList.Load | src/main/html/script.js:132-144 | succeeds exactly when the stored text parses; on failure nothing changes; on success the stored names are appended in order, and a list loaded from empty leaves the store unchanged |
| PlayLists.PlayList.GetNamedItemPosition | src/main/html/script.js:163-173 | the first position with that name, or -1 |
| PlayLists.PlayList.GetIndexedItemPosition | src/main/html/script.js:203-213 | the first position with that index, or -1 |
| PlayLists.PlayList.GetIndexedItem | src/main/html/script.js:216-226 | a play exactly when the index is present, and then the play of that index |
| PlayLists.PlayList.MoveItem | src/main/html/script.js:47-77 | -1 and nothing changed when the position is -1 or the target equals it; otherwise the target, the plays `Moved` there and stored, the indexing rule kept |
| PlayLists.PlayList.RemoveItem | src/main/html/script.js:80-92 | returns the position; -1 changes nothing; otherwise that play is removed and the names stored |
| PlayLists.PlayList.GetPage | src/main/html/script.js:245-253 | the loop returns `Page` of the plays |
| PlayLists.MovedPlayLists | src/main/html/script.js:47-77 | moving playlists puts each at its source's place and keeps their indices distinct |
| PlayLists.PlayListList.constructor | src/main/html/script.js:289-295 | creates the list and loads it: the store is unchanged, every playlist is new, and when everything parses every list holds exactly what is stored |
| PlayLists.PlayListList.Store | src/main/html/script.js:121-129 | the names of the playlists are stored under the list's key |
| PlayLists.PlayListList.AddItem | src/main/html/script.js:316-318 | appends a new empty playlist keyed by prefix and name, with the counter's index, and stores the names |
| PlayLists.PlayListList.AddItems | src/main/html/script.js:139-141 | appends a new, empty, consecutively indexed playlist for each name |
| PlayLists.PlayListList.Load | src/main/html/script.js:298-304 | succeeds exactly when the list's text and every playlist's text parse; then every list holds what is stored; the store is never changed |
| PlayLists.PlayListList.LoadNames | src/main/html/script.js:299 | a new empty playlist for each stored name; succeeds exactly when the list's text parses, and then the names are the stored ones; the store is unchanged |
| PlayLists.PlayListList.LoadChild | src/main/html/script.js:302 | loads one playlist, no other; succeeds exactly when its text parses, and then it holds what is stored |
| PlayLists.PlayListList.LoadItems | src/main/html/script.js:301-303 | loads every playlist, stopping at the first whose text does not parse; succeeds exactly when all parse |
| PlayLists.PlayListList.Clear | src/main/html/script.js:307-313 | every playlist and the list are empty, every counter is -1, and none of their keys is left in the store |
| PlayLists.PlayListList.ClearChildren | src/main/html/script.js:308-310 | every playlist is empty with counter -1, and the store has lost each playlist's key |
| PlayLists.PlayListList.GetNamedItemPosition | src/main/html/script.js:163-173 | the first position with that name, or -1 |
| PlayLists.PlayListList.GetIndexedItemPosition | src/main/html/script.js:203-213 | the first position with that index, or -1 |
| PlayLists.PlayListList.GetIndexedItem | src/main/html/script.js:216-226 | a playlist exactly when the index is present, and then the playlist of that index |
| PlayLists.PlayListList.MoveItem | src/main/html/script.js:47-77 | as for plays: nothing or a `Moved` list that is stored; no new playlist appears, and every playlist stays valid |
| PlayLists.PlayListList.MoveChildren | src/main/html/script.js:54-70 | the playlists become `Moved`, keep their indices distinct, and no new playlist appears |
| PlayLists.PlayListList.RemoveItem | src/main/html/script.js:80-92 | removes the playlist at the position and stores the names; no new playlist appears |
| PlayLists.SearchManager.constructor | src/main/html/script.js:714-721 | through the constructors it extends, loads the playlists from the fixed keys, leaves the store unchanged, and starts with no displayed list, page -1 and no dictionary |
| PlayLists.SearchManager.LoadDictionary | src/main/html/script.js:795-808 | the dictionary becomes the loaded one and nothing else changes |
| PlayLists.SearchManager.CreatePlayList | src/main/html/script.js:371-377 | adds an empty playlist under the escaped name, with the counter's index, exactly when that name is non-empty and new, and advances the counter by one; otherwise nothing changes; names stay unique |
| PlayLists.SearchManager.MovePlayList | src/main/html/script.js:380-397 | looks the index up and moves that playlist as `MoveItem` does; an unknown index changes nothing; the counter is unchanged |
| PlayLists.SearchManager.RemovePlayList | src/main/html/script.js:400-411 | looks the index up and removes that playlist; an unknown index changes nothing; the counter is unchanged |
| PlayLists.SearchManager.AddPlay | src/main/html/script.js:571-583 | appends the play to the playlist of that index and stores it; no other playlist changes; an unknown index changes nothing |
| PlayLists.SearchManager.SetDisplayedPlayList | src/main/html/script.js:426-432 | displays the playlist of that index (none for an unknown index) from page 0 |
| PlayLists.SearchManager.MovePlay | src/main/html/script.js:614-623 | moves the play of that index within the displayed playlist; its counter is unchanged |
| PlayLists.SearchManager.RemovePlay | src/main/html/script.js:626-635 | removes the play of that index from the displayed playlist; its counter is unchanged |
| PlayLists.SearchManager.SearchPlay | src/main/html/script.js:756-793 | the result list holds the translations of the ranked names, up to the first name without one, numbered from -1; the display moves to it exactly when every name was translated; the store is unchanged |
| PlayLists.AddTranslations | src/main/html/script.js:785-787 | adds the translation of each name until one is missing, numbered on from the counter; succeeds exactly when none is missing; the store is unchanged |
| PlayLists.AddTranslation | src/main/html/script.js:785-787 | one turn of that loop: with no translation the list is unchanged and the loop has added every translation it will; otherwise the translation is appended with the next index |
| LegacyPlayLists.PlayList.constructor | src/html/script.js:166-172 | an empty list with counter 0 under the given key and name |
| LegacyPlayLists.PlayList.Store | src/html/script.js:28-36 | the store afterwards is `Stored` of the names |
| LegacyPlayLists.PlayList.Clear | src/html/script.js:54-59 | the list is empty, the counter restarts at 0, and the key is removed |
| LegacyPlayLists.PlayList.AddItem | src/html/script.js:62-70 | appends a play with the counter's value, advances the counter, stores the names |
| LegacyPlayLists.PlayList.AddItems | src/html/script.js:46-48 | appends the names as consecutively numbered plays |
| LegacyPlayLists.PlayList.AddNext | src/html/script.js:46-48 | one turn of that loop: the numbered run of names grows by the next name, and the names are stored |
| LegacyPlayLists.PlayList.Load | src/html/script.js:39-51 | succeeds exactly when the stored text parses; on failure nothing changes; on success the stored names are appended in order |
| LegacyPlayLists.PlayList.GetItem | src/html/script.js:73-83 | a play exactly when the index is present, and then the first play of that index |
| LegacyPlayLists.PlayList.GetItemPosition | src/html/script.js:86-96 | the first position with that index, or -1 |
| LegacyPlayLists.PlayList.RemoveItem | src/html/script.js:99-107 | removes the play of that index and stores; an unknown index changes nothing; the index is gone afterwards |
| LegacyPlayLists.PlayList.UpgradeItem | src/html/script.js:110-121 | swaps the play of that index with its predecessor and stores; nothing at the first position or for an unknown index |
| LegacyPlayLists.PlayList.DowngradeItem | src/html/script.js:124-135 | swaps the play of that index with its successor and stores; nothing at the last position or for an unknown index |
| LegacyPlayLists.PlayListList.constructor | src/html/script.js:184-190 | creates and loads the list: the store is unchanged and, when everything parses, every list holds what is stored |
| LegacyPlayLists.PlayListList.Store | src/html/script.js:28-36 | the names of the playlists are stored under the list's key |
| LegacyPlayLists.PlayListList.AddItem | src/html/script.js:211-213 | appends a new empty playlist keyed by prefix and name, with the counter's index, and stores the names |
| LegacyPlayLists.PlayListList.AddItems | src/html/script.js:46-48 | appends a new empty playlist for each name |
| LegacyPlayLists.PlayListList.Load | src/html/script.js:193-199 | succeeds exactly when every stored text parses; then every list holds what is stored; the store is never changed |
| LegacyPlayLists.PlayListList.LoadNames | src/html/script.js:194 | a new empty playlist for each stored name; succeeds exactly when the list's text parses, and then the names are the stored ones |
| LegacyPlayLists.PlayListList.LoadChild | src/html/script.js:197 | loads one playlist, no other; succeeds exactly when its text parses, and then it holds what is stored |
| LegacyPlayLists.PlayListList.LoadItems | src/html/script.js:196-198 | loads each playlist until one fails to parse |
| LegacyPlayLists.PlayListList.Clear | src/html/script.js:202-208 | every playlist and the list are empty with counter 0, and none of their keys is left |
| LegacyPlayLists.PlayListList.ClearChildren | src/html/script.js:203-205 | every playlist is empty with counter 0, and the store has lost each playlist's key |
| LegacyPlayLists.PlayListList.GetItem | src/html/script.js:73-83 | a playlist exactly when the index is present, and then the first playlist of that index |
| LegacyPlayLists.PlayListList.GetItemPosition | src/html/script.js:86-96 | the first position with that index, or -1 |
| LegacyPlayLists.PlayListList.ContainsItem | src/html/script.js:138-148 | true exactly when some playlist has that name |
| LegacyPlayLists.PlayListList.RemoveItem | src/html/script.js:99-107 | removes the playlist of that index and stores; the index is gone afterwards |
| LegacyPlayLists.PlayListList.RemoveChild | src/html/script.js:103 | `splice` on the playlists: `RemoveAt` of the position, the removed index gone, indices still distinct |
| LegacyPlayLists.PlayListList.UpgradeItem | src/html/script.js:110-121 | swaps the playlist of that index with its predecessor and stores |
| LegacyPlayLists.PlayListList.DowngradeItem | src/html/script.js:124-135 | swaps the playlist of that index with its successor and stores |
| LegacyPlayLists.PlayListList.SwapChildren | src/html/script.js:113-116 | the in-place swap through a saved item equals `Swapped`, and indices stay distinct |
| LegacyPlayLists.Player.constructor | src/html/script.js:220-227 | loads the playlists from the fixed keys and starts with no current playlist and no dictionary |
| LegacyPlayLists.Player.LoadDictionary | src/html/script.js:521-535 | the dictionary becomes the loaded one |
| LegacyPlayLists.Player.CreatePlayList | src/html/script.js:243-251 | adds an empty playlist under the escaped name, with the counter's index, exactly when no playlist has that name (the empty name included), and advances the counter by one; names stay unique |
| LegacyPlayLists.Player.RemovePlayList | src/html/script.js:272-278 | removes the playlist of that index; the counter is unchanged |
| LegacyPlayLists.Player.UpgradePlayList | src/html/script.js:281-287 | moves the playlist of that index up one place; the counter is unchanged |
| LegacyPlayLists.Player.DowngradePlayList | src/html/script.js:290-296 | moves the playlist of that index down one place; the counter is unchanged |
| LegacyPlayLists.Player.SetPlayList | src/html/script.js:299-305 | makes the playlist of that index current (none for an unknown index) |
| LegacyPlayLists.Player.AddPlay | src/html/script.js:359-371 | appends the play to the playlist of that index; no other playlist changes |
| LegacyPlayLists.Player.RemovePlay | src/html/script.js:402-408 | removes the play of that index from the current playlist; its counter is unchanged |
| LegacyPlayLists.Player.UpgradePlay | src/html/script.js:411-417 | moves the play of that index up one place in the current playlist; its counter is unchanged |
| LegacyPlayLists.Player.DowngradePlay | src/html/script.js:420-426 | moves the play of that index down one place in the current playlist; its counter is unchanged |
| LegacyPlayLists.Player.SearchPlay | src/html/script.js:483-519 | the result list holds the ranked names themselves, numbered from 0, and becomes current; the store is unchanged |
| LegacyPlayLists.Player.AddNames | src/html/script.js:512-514 | appends each ranked name as a consecutively numbered play |

## Left out

- Everything on the page: reading input fields, writing `innerHTML`, building and reordering DOM children,
  pagination links, the video elements and `playPlay`, `playIt` and `playNextPlay`. None of it changes list data.
- `loadPlay`, `insertPlay` and `loadPage`: these fetch summary files over the network to show them. They do not change list data.
- `loadDictionary`: the request and the callback are not modelled. `LoadDictionary` receives the parsed
  dictionary instead. A failed request and a dictionary file that does not parse are not modelled.
- The global `PLAYER` and `window.onload` wiring.
- `JSON.parse` is modelled only for the text `store` writes: quoted names with no quote or backslash, separated
  by ", ". Escapes, other JSON values and other whitespace are not parsed. Such text makes `Load` report a
  failure. The real parser would read some of that text, for example an escaped quote.
- `toLowerCase` is modelled on ASCII letters only. Unicode case mapping is not modelled.
- A reference's `count` goes through `parseInt`. It is modelled as an `int`, so `NaN` and non-numeric counts are not modelled.
- `Array.prototype.sort` is a library call. It is modelled as a stable insertion sort function. The in-place sort of the engine is not modelled.
- The comparator `second[1] - first[1]` is modelled on unbounded integers. Floating-point subtraction is not modelled.
- `Math.ceil(length / 20)` is modelled as integer ceiling division.
- PlayLists.PlayList.GetPage: takes a page number of type `nat`. The source is never called with a negative number. A negative number would make it read before the start of the array.
- PlayLists.PlayList.MoveItem: requires the position to be -1 or inside the list. This is what every caller
  passes, since the position comes from `getIndexedItemPosition`. The same goes for `RemoveItem` in both classes.
- PlayLists.PlayListList.Load: is modelled only on the empty list, which is how the constructor calls it. `load` is never called on a non-empty list.
- PlayLists.PlayListList.LoadNames: requires the empty list, for the same reason. The same goes for `Load` and `LoadNames` in `LegacyPlayLists`.
- PlayLists.PlayList.constructor: takes the playlist's index as a parameter. The source sets `index` just after
  construction, and the order makes no difference to the list data. The same goes for the children in
  `LegacyPlayLists`. The index of a search result list is -1, as in the source.
- A `JSON.parse` that throws becomes a method result of `false`. The exception does not escape, and any
  handler, the page's behaviour included, is not modelled.
- PlayLists.SearchManager.SearchPlay: when a ranked name has no translation, the source reads `.value` of
  `undefined` and throws. The model stops at that name, returns `false` and keeps what was added before it.
  Rendering is not modelled.
- Removing a playlist does not remove that playlist's own key from the store. The model keeps that behaviour as written.
- Escaping.EscapeName: works on Unicode characters, while `split('')` in the source works on UTF-16 code units.
  A character outside the Basic Multilingual Plane is two code units in the source, so it becomes "??" there and
  "?" in the model. The escaped names can then differ in length, and two names can collide in one model but not the other.
- `escapeName`'s allowed set leaves out 'Y', while every other ASCII letter is in it. The model keeps the set as written.
