/**
 * The tag-search ranker of `searchPlay`, shared by both revisions up to the
 * point where the result list is filled: split the query on single spaces,
 * lower-case each token, look it up among the dictionary's tags (first match
 * wins), add every reference's count into a JavaScript `Map` keyed by the
 * reference name, and sort the map's entries by count, descending, with the
 * stable `Array.prototype.sort` (ties keep the map's insertion order).
 */
module Ranking {
  import opened Options
  import opened ItemSequences

  datatype Reference = Reference(name: string, count: int)
  datatype Tag = Tag(name: string, referenceArray: seq<Reference>)
  datatype Translation = Translation(key: string, value: string)
  datatype Dictionary = Dictionary(tagArray: seq<Tag>, translationArray: seq<Translation>)

  /** An entry of the `countMap`: a reference name and its accumulated count. */
  datatype Count = Count(name: string, count: int)

  // ---------------------------------------------------------------------------
  // The query
  // ---------------------------------------------------------------------------

  /** `String.prototype.split` on one character. */
  function Split(s: string, separator: char): (r: seq<string>)
    ensures |r| > 0
    ensures forall k :: 0 <= k < |r| ==> separator !in r[k]
    decreases |s|
  {
    if s == [] then [""]
    else
      var rest := Split(s[1..], separator);
      if s[0] == separator then [""] + rest
      else [[s[0]] + rest[0]] + rest[1..]
  }

  function JoinWith(parts: seq<string>, separator: char): string
    requires |parts| > 0
    decreases |parts|
  {
    if |parts| == 1 then parts[0] else parts[0] + [separator] + JoinWith(parts[1..], separator)
  }

  /** Splitting loses nothing: joining the tokens with the separator gives the query back. */
  lemma {:induction false} SplitJoin(s: string, separator: char)
    ensures JoinWith(Split(s, separator), separator) == s
    decreases |s|
  {
    if s != [] {
      var rest := Split(s[1..], separator);
      SplitJoin(s[1..], separator);
      if s[0] == separator {
        assert ([""] + rest)[1..] == rest;
      } else {
        var r := [[s[0]] + rest[0]] + rest[1..];
        assert r[1..] == rest[1..];
        if |rest| > 1 {
          assert JoinWith(rest, separator) == rest[0] + [separator] + JoinWith(rest[1..], separator);
        }
      }
    }
  }

  /** `toLowerCase`, on ASCII letters only. */
  function LowerChar(c: char): char
  {
    if 'A' <= c <= 'Z' then (c as int + 32) as char else c
  }

  function ToLower(s: string): (r: string)
    ensures |r| == |s|
    ensures forall i :: 0 <= i < |r| ==> !('A' <= r[i] <= 'Z')
    ensures forall i :: 0 <= i < |s| && !('A' <= s[i] <= 'Z') ==> r[i] == s[i]
    ensures forall i :: 0 <= i < |s| && 'A' <= s[i] <= 'Z' ==> r[i] == "abcdefghijklmnopqrstuvwxyz"[s[i] as int - 'A' as int]
  {
    seq(|s|, i requires 0 <= i < |s| => LowerChar(s[i]))
  }

  // ---------------------------------------------------------------------------
  // The dictionary
  // ---------------------------------------------------------------------------

  function TagNames(tags: seq<Tag>): seq<string>
  {
    seq(|tags|, i requires 0 <= i < |tags| => tags[i].name)
  }

  function TranslationKeys(translations: seq<Translation>): seq<string>
  {
    seq(|translations|, i requires 0 <= i < |translations| => translations[i].key)
  }

  /** The first tag of that name, or None; an absent dictionary has no tags. */
  function FindTag(dictionary: Option<Dictionary>, tagName: string): (r: Option<Tag>)
    ensures r.Some? <==> dictionary.Some? && tagName in TagNames(dictionary.value.tagArray)
    ensures r.Some? ==> r.value.name == tagName && r.value in dictionary.value.tagArray
  {
    if dictionary.None? then None
    else
      var p := PositionOf(TagNames(dictionary.value.tagArray), tagName);
      if p == -1 then None else Some(dictionary.value.tagArray[p])
  }

  /** The first translation of that key, or None; an absent dictionary has none. */
  function FindTranslation(dictionary: Option<Dictionary>, key: string): (r: Option<Translation>)
    ensures r.Some? <==> dictionary.Some? && key in TranslationKeys(dictionary.value.translationArray)
    ensures r.Some? ==> r.value.key == key && r.value in dictionary.value.translationArray
  {
    if dictionary.None? then None
    else
      var p := PositionOf(TranslationKeys(dictionary.value.translationArray), key);
      if p == -1 then None else Some(dictionary.value.translationArray[p])
  }

  /** The loop of `getTag`: the first tag whose name matches, leaving at the first match. */
  method GetTag(dictionary: Option<Dictionary>, tagName: string) returns (result: Option<Tag>)
    ensures result == FindTag(dictionary, tagName)
  {
    result := None;
    if dictionary.Some? {
      var tags := dictionary.value.tagArray;
      var k := 0;
      while k < |tags|
        invariant 0 <= k <= |tags|
        invariant tagName !in TagNames(tags)[..k]
      {
        if tags[k].name == tagName {
          result := Some(tags[k]);
          assert TagNames(tags)[k] == tagName;
          return;
        }
        assert TagNames(tags)[..k + 1] == TagNames(tags)[..k] + [tags[k].name];
        k := k + 1;
      }
      assert TagNames(tags)[..k] == TagNames(tags);
    }
  }

  /** The loop of `getTranslation`: the first translation whose key matches. */
  method GetTranslation(dictionary: Option<Dictionary>, key: string) returns (result: Option<Translation>)
    ensures result == FindTranslation(dictionary, key)
  {
    result := None;
    if dictionary.Some? {
      var translations := dictionary.value.translationArray;
      var k := 0;
      while k < |translations|
        invariant 0 <= k <= |translations|
        invariant key !in TranslationKeys(translations)[..k]
      {
        if translations[k].key == key {
          result := Some(translations[k]);
          assert TranslationKeys(translations)[k] == key;
          return;
        }
        assert TranslationKeys(translations)[..k + 1] == TranslationKeys(translations)[..k] + [translations[k].key];
        k := k + 1;
      }
      assert TranslationKeys(translations)[..k] == TranslationKeys(translations);
    }
  }

  // ---------------------------------------------------------------------------
  // The count map: a JavaScript Map keeps its keys in insertion order, and
  // setting an existing key keeps that key's place.
  // ---------------------------------------------------------------------------

  function Keys(m: seq<Count>): seq<string>
  {
    seq(|m|, i requires 0 <= i < |m| => m[i].name)
  }

  function MapGet(m: seq<Count>, name: string): Option<int>
  {
    var p := PositionOf(Keys(m), name);
    if p == -1 then None else Some(m[p].count)
  }

  function MapSet(m: seq<Count>, name: string, count: int): seq<Count>
  {
    var p := PositionOf(Keys(m), name);
    if p == -1 then m + [Count(name, count)] else m[p := Count(name, count)]
  }

  /** The count a name has so far, 0 when absent. */
  function CountOf(m: seq<Count>, name: string): int
  {
    match MapGet(m, name)
    case None => 0
    case Some(c) => c
  }

  /** One step of the inner loop: a falsy previous count (absent or 0) is replaced, else added to. */
  function Bump(m: seq<Count>, reference: Reference): seq<Count>
  {
    var previousCount := MapGet(m, reference.name);
    if previousCount.Some? && previousCount.value != 0 then
      MapSet(m, reference.name, reference.count + previousCount.value)
    else
      MapSet(m, reference.name, reference.count)
  }

  /** The inner loop over one tag's references. */
  function AddReferences(m: seq<Count>, references: seq<Reference>): (r: seq<Count>)
    ensures |m| <= |r| <= |m| + |references|
    decreases |references|
  {
    if references == [] then m else AddReferences(Bump(m, references[0]), references[1..])
  }

  /** The outer loop over the query's tokens; a token without a tag adds nothing. */
  function CountTokens(dictionary: Option<Dictionary>, tagNames: seq<string>, m: seq<Count>): (r: seq<Count>)
    ensures |m| <= |r|
    decreases |tagNames|
  {
    if tagNames == [] then m
    else
      var m' := match FindTag(dictionary, ToLower(tagNames[0]))
        case None => m
        case Some(tag) => AddReferences(m, tag.referenceArray);
      CountTokens(dictionary, tagNames[1..], m')
  }

  /** The count map `searchPlay` builds for a query. */
  function Counts(dictionary: Option<Dictionary>, query: string): seq<Count>
  {
    CountTokens(dictionary, Split(query, ' '), [])
  }

  /** The loops of `searchPlay` that fill `countMap`. */
  method Accumulate(dictionary: Option<Dictionary>, tagNameArray: seq<string>) returns (countMap: seq<Count>)
    ensures countMap == CountTokens(dictionary, tagNameArray, [])
  {
    countMap := [];
    for k := 0 to |tagNameArray|
      invariant CountTokens(dictionary, tagNameArray, []) == CountTokens(dictionary, tagNameArray[k..], countMap)
    {
      assert tagNameArray[k..][1..] == tagNameArray[k + 1..];
      var tag := GetTag(dictionary, ToLower(tagNameArray[k]));
      if tag.Some? {
        countMap := AddTagReferences(countMap, tag.value.referenceArray);
      }
    }
  }

  /** The inner loop of `searchPlay` over one tag's references. */
  method AddTagReferences(countMap: seq<Count>, references: seq<Reference>) returns (result: seq<Count>)
    ensures result == AddReferences(countMap, references)
  {
    result := countMap;
    for j := 0 to |references|
      invariant AddReferences(countMap, references) == AddReferences(result, references[j..])
    {
      assert references[j..][1..] == references[j + 1..];
      var reference := references[j];
      var previousCount := MapGet(result, reference.name);
      if previousCount.Some? && previousCount.value != 0 {
        result := MapSet(result, reference.name, reference.count + previousCount.value);
      } else {
        result := MapSet(result, reference.name, reference.count);
      }
    }
  }

  // ---------------------------------------------------------------------------
  // What the count map holds
  // ---------------------------------------------------------------------------

  /** The references of every token's tag, in query order; a repeated token repeats them. */
  function MatchedReferences(dictionary: Option<Dictionary>, tagNames: seq<string>): seq<Reference>
    decreases |tagNames|
  {
    if tagNames == [] then []
    else
      var own := match FindTag(dictionary, ToLower(tagNames[0]))
        case None => []
        case Some(tag) => tag.referenceArray;
      own + MatchedReferences(dictionary, tagNames[1..])
  }

  function ReferenceNames(references: seq<Reference>): seq<string>
  {
    seq(|references|, i requires 0 <= i < |references| => references[i].name)
  }

  /** The sum of the counts of the references of that name. */
  function Weight(references: seq<Reference>, name: string): int
    decreases |references|
  {
    if references == [] then 0
    else (if references[0].name == name then references[0].count else 0) + Weight(references[1..], name)
  }

  /** The names in order of first occurrence, after those of `seen`. */
  function AppendNew(seen: seq<string>, names: seq<string>): seq<string>
    decreases |names|
  {
    if names == [] then seen
    else AppendNew(if names[0] in seen then seen else seen + [names[0]], names[1..])
  }

  function FirstSeen(names: seq<string>): seq<string>
  {
    AppendNew([], names)
  }

  lemma {:induction false} AddReferencesAppend(m: seq<Count>, a: seq<Reference>, b: seq<Reference>)
    ensures AddReferences(m, a + b) == AddReferences(AddReferences(m, a), b)
    decreases |a|
  {
    if a != [] {
      assert (a + b)[1..] == a[1..] + b;
      AddReferencesAppend(Bump(m, a[0]), a[1..], b);
    } else {
      assert a + b == b;
    }
  }

  /** Counting token by token is counting the matched references in one pass. */
  lemma {:induction false} CountTokensMatched(dictionary: Option<Dictionary>, tagNames: seq<string>, m: seq<Count>)
    ensures CountTokens(dictionary, tagNames, m) == AddReferences(m, MatchedReferences(dictionary, tagNames))
    decreases |tagNames|
  {
    if tagNames != [] {
      var own := match FindTag(dictionary, ToLower(tagNames[0]))
        case None => []
        case Some(tag) => tag.referenceArray;
      AddReferencesAppend(m, own, MatchedReferences(dictionary, tagNames[1..]));
      CountTokensMatched(dictionary, tagNames[1..], AddReferences(m, own));
    }
  }

  lemma PositionOfAppend(keys: seq<string>, key: string, other: string)
    requires other != key
    ensures PositionOf(keys + [key], other) == PositionOf(keys, other)
  {
    var p := PositionOf(keys + [key], other);
    if p != -1 {
      assert (keys + [key])[..p] == keys[..p];
    } else {
      assert forall i :: 0 <= i < |keys| ==> (keys + [key])[i] == keys[i];
    }
  }

  /** A bump adds the reference's count to its name, appends a new name at the end, and touches nothing else. */
  lemma BumpEffect(m: seq<Count>, reference: Reference)
    ensures Keys(Bump(m, reference)) == if reference.name in Keys(m) then Keys(m) else Keys(m) + [reference.name]
    ensures CountOf(Bump(m, reference), reference.name) == CountOf(m, reference.name) + reference.count
    ensures MapGet(Bump(m, reference), reference.name).Some?
    ensures forall n :: n != reference.name ==> MapGet(Bump(m, reference), n) == MapGet(m, n)
  {
    var name := reference.name;
    var p := PositionOf(Keys(m), name);
    var m' := Bump(m, reference);
    if p == -1 {
      assert Keys(m') == Keys(m) + [name];
      assert PositionOf(Keys(m'), name) == |m|;
      forall n | n != name
        ensures MapGet(m', n) == MapGet(m, n)
      {
        PositionOfAppend(Keys(m), name, n);
      }
    } else {
      assert Keys(m') == Keys(m);
    }
  }

  /**
   * After the inner loop, each entry's count is its count before plus the
   * weight of the references of its name, and the new names are appended in
   * order of first occurrence.
   */
  lemma AddReferencesEffect(m: seq<Count>, references: seq<Reference>)
    ensures Keys(AddReferences(m, references)) == AppendNew(Keys(m), ReferenceNames(references))
    ensures forall n :: CountOf(AddReferences(m, references), n) == CountOf(m, n) + Weight(references, n)
    ensures forall n :: MapGet(AddReferences(m, references), n).Some? <==> MapGet(m, n).Some? || n in ReferenceNames(references)
  {
    AddReferencesKeys(m, references);
    forall n
      ensures CountOf(AddReferences(m, references), n) == CountOf(m, n) + Weight(references, n)
      ensures MapGet(AddReferences(m, references), n).Some? <==> MapGet(m, n).Some? || n in ReferenceNames(references)
    {
      AddReferencesCount(m, references, n);
      AddReferencesPresent(m, references, n);
    }
  }

  /** The inner loop appends the new names in order of first occurrence. */
  lemma {:induction false} AddReferencesKeys(m: seq<Count>, references: seq<Reference>)
    ensures Keys(AddReferences(m, references)) == AppendNew(Keys(m), ReferenceNames(references))
    decreases |references|
  {
    if references != [] {
      var r := references[0];
      var names := ReferenceNames(references);
      BumpEffect(m, r);
      AddReferencesKeys(Bump(m, r), references[1..]);
      assert names[0] == r.name && names[1..] == ReferenceNames(references[1..]);
      assert AddReferences(m, references) == AddReferences(Bump(m, r), references[1..]);
      assert AppendNew(Keys(m), names) == AppendNew(Keys(Bump(m, r)), names[1..]);
    }
  }

  /** The inner loop adds a name's weight to its count. */
  lemma {:induction false} AddReferencesCount(m: seq<Count>, references: seq<Reference>, n: string)
    ensures CountOf(AddReferences(m, references), n) == CountOf(m, n) + Weight(references, n)
    decreases |references|
  {
    if references != [] {
      var r := references[0];
      var m1 := Bump(m, r);
      BumpEffect(m, r);
      AddReferencesCount(m1, references[1..], n);
      if n != r.name {
        assert MapGet(m1, n) == MapGet(m, n);
      }
    }
  }

  /** A name is present after the inner loop exactly when it was before or is referenced. */
  lemma {:induction false} AddReferencesPresent(m: seq<Count>, references: seq<Reference>, n: string)
    ensures MapGet(AddReferences(m, references), n).Some? <==> MapGet(m, n).Some? || n in ReferenceNames(references)
    decreases |references|
  {
    if references != [] {
      var r := references[0];
      BumpPresent(m, r, n);
      AddReferencesPresent(Bump(m, r), references[1..], n);
      ReferenceNamesCons(references, n);
    }
  }

  /** After one reference, a name has an entry when it had one or is the reference's name. */
  lemma BumpPresent(m: seq<Count>, reference: Reference, n: string)
    ensures MapGet(Bump(m, reference), n).Some? <==> MapGet(m, n).Some? || n == reference.name
  {
    BumpEffect(m, reference);
  }

  /** A name is among the references' names when it is the first one's or among the others'. */
  lemma ReferenceNamesCons(references: seq<Reference>, n: string)
    requires references != []
    ensures n in ReferenceNames(references) <==> n == references[0].name || n in ReferenceNames(references[1..])
  {
    assert ReferenceNames(references) == [references[0].name] + ReferenceNames(references[1..]);
  }

  lemma {:induction false} AppendNewDistinct(seen: seq<string>, names: seq<string>)
    requires Distinct(seen)
    ensures Distinct(AppendNew(seen, names))
    ensures forall n :: n in AppendNew(seen, names) <==> n in seen || n in names
    decreases |names|
  {
    if names != [] {
      var next := if names[0] in seen then seen else seen + [names[0]];
      AppendNewDistinct(next, names[1..]);
    }
  }

  /** An entry of a map whose keys are distinct is what MapGet finds for its name. */
  lemma EntryCount(m: seq<Count>, i: nat)
    requires Distinct(Keys(m)) && i < |m|
    ensures MapGet(m, m[i].name) == Some(m[i].count)
  {
    assert Keys(m)[i] == m[i].name;
  }

  /**
   * The count map of a query: its names are the matched references' names,
   * each once, in order of first occurrence, and each carries the sum of the
   * counts of its references over every matched token.
   */
  lemma CountsCharacterized(dictionary: Option<Dictionary>, query: string)
    ensures var m := Counts(dictionary, query);
      var references := MatchedReferences(dictionary, Split(query, ' '));
      && Keys(m) == FirstSeen(ReferenceNames(references))
      && Distinct(Keys(m))
      && (forall n :: n in Keys(m) <==> n in ReferenceNames(references))
      && (forall i :: 0 <= i < |m| ==> m[i].count == Weight(references, m[i].name))
  {
    var tagNames := Split(query, ' ');
    var m := Counts(dictionary, query);
    var references := MatchedReferences(dictionary, tagNames);
    CountTokensMatched(dictionary, tagNames, []);
    AddReferencesEffect([], references);
    assert Keys([]) == [];
    AppendNewDistinct([], ReferenceNames(references));
    forall i | 0 <= i < |m|
      ensures m[i].count == Weight(references, m[i].name)
    {
      EntryCount(m, i);
      assert CountOf(m, m[i].name) == m[i].count;
    }
  }

  /** A token whose tag is missing contributes nothing to the count map. */
  lemma {:induction false} UnmatchedTokenIgnored(dictionary: Option<Dictionary>, before: seq<string>, token: string, after: seq<string>, m: seq<Count>)
    requires FindTag(dictionary, ToLower(token)).None?
    ensures CountTokens(dictionary, before + [token] + after, m) == CountTokens(dictionary, before + after, m)
    decreases |before|
  {
    if before == [] {
      assert (before + [token] + after)[1..] == after;
      assert before + after == after;
    } else {
      var m' := match FindTag(dictionary, ToLower(before[0]))
        case None => m
        case Some(tag) => AddReferences(m, tag.referenceArray);
      assert (before + [token] + after)[1..] == before[1..] + [token] + after;
      assert (before + after)[1..] == before[1..] + after;
      UnmatchedTokenIgnored(dictionary, before[1..], token, after, m');
    }
  }

  /** Before the dictionary has loaded, every query yields an empty count map. */
  lemma {:induction false} NoDictionaryNoCounts(tagNames: seq<string>)
    ensures CountTokens(None, tagNames, []) == []
    decreases |tagNames|
  {
    if tagNames != [] {
      NoDictionaryNoCounts(tagNames[1..]);
    }
  }

  // ---------------------------------------------------------------------------
  // The sort: `countArray.sort((first, second) => second[1] - first[1])`,
  // stable as `Array.prototype.sort` is.
  // ---------------------------------------------------------------------------

  /** Place an entry before the first one whose count is not larger. */
  function InsertByCount(e: Count, sorted: seq<Count>): (r: seq<Count>)
    ensures |r| == |sorted| + 1
    decreases |sorted|
  {
    if sorted == [] || sorted[0].count <= e.count then [e] + sorted
    else [sorted[0]] + InsertByCount(e, sorted[1..])
  }

  function SortByCount(entries: seq<Count>): (r: seq<Count>)
    ensures |r| == |entries|
    decreases |entries|
  {
    if entries == [] then [] else InsertByCount(entries[0], SortByCount(entries[1..]))
  }

  predicate SortedByCount(s: seq<Count>)
  {
    forall i, j :: 0 <= i < j < |s| ==> s[i].count >= s[j].count
  }

  /** The entries of one count, in order. */
  function WithCount(s: seq<Count>, count: int): seq<Count>
    decreases |s|
  {
    if s == [] then [] else (if s[0].count == count then [s[0]] else []) + WithCount(s[1..], count)
  }

  lemma {:induction false} InsertByCountPermutation(e: Count, sorted: seq<Count>)
    ensures multiset(InsertByCount(e, sorted)) == multiset{e} + multiset(sorted)
    decreases |sorted|
  {
    if !(sorted == [] || sorted[0].count <= e.count) {
      InsertByCountPermutation(e, sorted[1..]);
      assert sorted == [sorted[0]] + sorted[1..];
    }
  }

  lemma {:induction false} InsertByCountSorted(e: Count, sorted: seq<Count>)
    requires SortedByCount(sorted)
    ensures SortedByCount(InsertByCount(e, sorted))
    decreases |sorted|
  {
    var r := InsertByCount(e, sorted);
    if !(sorted == [] || sorted[0].count <= e.count) {
      var tail := InsertByCount(e, sorted[1..]);
      InsertByCountSorted(e, sorted[1..]);
      InsertByCountPermutation(e, sorted[1..]);
      assert r == [sorted[0]] + tail;
      forall j | 0 < j < |r|
        ensures r[0].count >= r[j].count
      {
        assert r[j] in multiset(tail);
        if r[j] != e {
          assert r[j] in multiset(sorted[1..]);
          var k :| 0 <= k < |sorted[1..]| && sorted[1..][k] == r[j];
          assert sorted[1 + k] == r[j];
        }
      }
    }
  }

  lemma {:induction false} InsertByCountStable(e: Count, sorted: seq<Count>, w: int)
    ensures WithCount(InsertByCount(e, sorted), w) == (if e.count == w then [e] else []) + WithCount(sorted, w)
    decreases |sorted|
  {
    var r := InsertByCount(e, sorted);
    if sorted == [] || sorted[0].count <= e.count {
      assert r == [e] + sorted;
      assert r[1..] == sorted;
    } else {
      var tail := InsertByCount(e, sorted[1..]);
      InsertByCountStable(e, sorted[1..], w);
      assert r == [sorted[0]] + tail;
      assert r[1..] == tail;
      assert WithCount(sorted, w) == (if sorted[0].count == w then [sorted[0]] else []) + WithCount(sorted[1..], w);
    }
  }

  lemma {:induction false} InsertByCountKeys(e: Count, sorted: seq<Count>)
    ensures forall n :: n in Keys(InsertByCount(e, sorted)) <==> n == e.name || n in Keys(sorted)
    ensures Distinct(Keys(sorted)) && e.name !in Keys(sorted) ==> Distinct(Keys(InsertByCount(e, sorted)))
    decreases |sorted|
  {
    var r := InsertByCount(e, sorted);
    if sorted == [] || sorted[0].count <= e.count {
      assert Keys(r) == [e.name] + Keys(sorted);
    } else {
      var tail := InsertByCount(e, sorted[1..]);
      InsertByCountKeys(e, sorted[1..]);
      assert Keys(r) == [sorted[0].name] + Keys(tail);
      assert Keys(sorted) == [sorted[0].name] + Keys(sorted[1..]);
      if Distinct(Keys(sorted)) && e.name !in Keys(sorted) {
        DistinctCons(sorted[0].name, Keys(sorted[1..]));
        DistinctCons(sorted[0].name, Keys(tail));
      }
    }
  }

  lemma DistinctCons(x: string, t: seq<string>)
    ensures Distinct([x] + t) <==> x !in t && Distinct(t)
  {
    var s := [x] + t;
    assert forall i :: 0 <= i < |t| ==> s[i + 1] == t[i];
    if Distinct(s) {
      forall i, j | 0 <= i < j < |t|
        ensures t[i] != t[j]
      {
        assert s[i + 1] != s[j + 1];
      }
      forall k | 0 <= k < |t|
        ensures t[k] != x
      {
        assert s[0] != s[k + 1];
      }
    }
  }

  /** The sort is sorted by count, descending, and a permutation of its input. */
  lemma {:induction false} SortByCountSorted(entries: seq<Count>)
    ensures SortedByCount(SortByCount(entries))
    ensures multiset(SortByCount(entries)) == multiset(entries)
    decreases |entries|
  {
    if entries != [] {
      SortByCountSorted(entries[1..]);
      InsertByCountSorted(entries[0], SortByCount(entries[1..]));
      InsertByCountPermutation(entries[0], SortByCount(entries[1..]));
      assert entries == [entries[0]] + entries[1..];
    }
  }

  /** The sort is stable: the entries of each count keep their relative order. */
  lemma {:induction false} SortByCountStable(entries: seq<Count>, w: int)
    ensures WithCount(SortByCount(entries), w) == WithCount(entries, w)
    decreases |entries|
  {
    if entries != [] {
      SortByCountStable(entries[1..], w);
      InsertByCountStable(entries[0], SortByCount(entries[1..]), w);
    }
  }

  /** The sort keeps the set of names, and distinct names stay distinct. */
  lemma {:induction false} SortByCountKeys(entries: seq<Count>)
    ensures forall n :: n in Keys(SortByCount(entries)) <==> n in Keys(entries)
    ensures Distinct(Keys(entries)) ==> Distinct(Keys(SortByCount(entries)))
    decreases |entries|
  {
    if entries != [] {
      SortByCountKeys(entries[1..]);
      InsertByCountKeys(entries[0], SortByCount(entries[1..]));
      assert Keys(entries) == [entries[0].name] + Keys(entries[1..]);
      if Distinct(Keys(entries)) {
        DistinctCons(entries[0].name, Keys(entries[1..]));
      }
    }
  }

  /** The ranked entries of a query: the count map sorted by count. */
  function Ranked(dictionary: Option<Dictionary>, query: string): (r: seq<Count>)
    ensures SortedByCount(r) && multiset(r) == multiset(Counts(dictionary, query))
  {
    SortByCountSorted(Counts(dictionary, query));
    SortByCount(Counts(dictionary, query))
  }

  /**
   * The ranking of a query: every matched reference name exactly once, with
   * the sum of its counts over all matched tokens, in non-increasing count
   * order, and among equal counts in order of first occurrence.
   */
  lemma RankedCharacterized(dictionary: Option<Dictionary>, query: string)
    ensures var r := Ranked(dictionary, query);
      var m := Counts(dictionary, query);
      var references := MatchedReferences(dictionary, Split(query, ' '));
      && Distinct(Keys(r))
      && (forall n :: n in Keys(r) <==> n in ReferenceNames(references))
      && (forall i :: 0 <= i < |r| ==> r[i].count == Weight(references, r[i].name))
      && SortedByCount(r)
      && multiset(r) == multiset(m)
      && Keys(m) == FirstSeen(ReferenceNames(references))
      && (forall w :: WithCount(r, w) == WithCount(m, w))
  {
    var r := Ranked(dictionary, query);
    var m := Counts(dictionary, query);
    CountsCharacterized(dictionary, query);
    SortByCountSorted(m);
    SortByCountKeys(m);
    forall w
      ensures WithCount(r, w) == WithCount(m, w)
    {
      SortByCountStable(m, w);
    }
    forall i | 0 <= i < |r|
      ensures r[i].count == Weight(MatchedReferences(dictionary, Split(query, ' ')), r[i].name)
    {
      assert r[i] in multiset(m);
      var x :| 0 <= x < |m| && m[x] == r[i];
    }
  }

  /** The ranking of `searchPlay`: count, copy the map's entries into an array, sort it. */
  method RankQuery(dictionary: Option<Dictionary>, query: string) returns (countArray: seq<Count>)
    ensures countArray == Ranked(dictionary, query)
  {
    var tagNameArray := Split(query, ' ');
    var countMap := Accumulate(dictionary, tagNameArray);
    countArray := CopyEntries(countMap);
    countArray := SortByCount(countArray);
  }

  /** The loop that pushes each entry of `countMap` onto `countArray`. */
  method CopyEntries(countMap: seq<Count>) returns (countArray: seq<Count>)
    ensures countArray == countMap
  {
    countArray := [];
    for k := 0 to |countMap|
      invariant countArray == countMap[..k]
    {
      countArray := countArray + [countMap[k]];
    }
    assert countMap[..|countMap|] == countMap;
  }

  /** The ranked reference names, as the older revision adds them. */
  function RankedNames(dictionary: Option<Dictionary>, query: string): (r: seq<string>)
    ensures Distinct(r)
    ensures forall n :: n in r <==> n in ReferenceNames(MatchedReferences(dictionary, Split(query, ' ')))
  {
    CountsCharacterized(dictionary, query);
    SortByCountKeys(Counts(dictionary, query));
    Keys(Ranked(dictionary, query))
  }

  /**
   * The translations of the names, up to the first name that has none
   * (where the newer revision reads `.value` of `undefined` and throws).
   */
  function TranslatedPrefix(dictionary: Option<Dictionary>, names: seq<string>): (r: seq<string>)
    ensures |r| <= |names|
    decreases |names|
  {
    if names == [] then []
    else match FindTranslation(dictionary, names[0])
      case None => []
      case Some(translation) => [translation.value] + TranslatedPrefix(dictionary, names[1..])
  }

  predicate AllTranslated(dictionary: Option<Dictionary>, names: seq<string>)
  {
    forall k :: 0 <= k < |names| ==> FindTranslation(dictionary, names[k]).Some?
  }

  lemma TranslatedPrefixCons(dictionary: Option<Dictionary>, names: seq<string>)
    requires names != []
    ensures FindTranslation(dictionary, names[0]).None? ==> TranslatedPrefix(dictionary, names) == []
    ensures FindTranslation(dictionary, names[0]).Some? ==>
      TranslatedPrefix(dictionary, names) == [FindTranslation(dictionary, names[0]).value.value] + TranslatedPrefix(dictionary, names[1..])
  {
  }

  lemma AllTranslatedCons(dictionary: Option<Dictionary>, names: seq<string>)
    requires names != []
    ensures AllTranslated(dictionary, names) <==>
      FindTranslation(dictionary, names[0]).Some? && AllTranslated(dictionary, names[1..])
  {
    if FindTranslation(dictionary, names[0]).Some? && AllTranslated(dictionary, names[1..]) {
      forall k | 0 < k < |names|
        ensures FindTranslation(dictionary, names[k]).Some?
      {
        assert names[k] == names[1..][k - 1];
      }
    }
  }

  /**
   * One turn of the translation loop: with `added` translated before name k,
   * a missing translation ends the prefix there, and a present one extends it.
   */
  lemma TranslatedStep(dictionary: Option<Dictionary>, names: seq<string>, k: nat, added: seq<string>)
    requires k < |names|
    requires TranslatedPrefix(dictionary, names) == added + TranslatedPrefix(dictionary, names[k..])
    requires AllTranslated(dictionary, names) == AllTranslated(dictionary, names[k..])
    ensures FindTranslation(dictionary, names[k]).None? ==>
      TranslatedPrefix(dictionary, names) == added && !AllTranslated(dictionary, names)
    ensures FindTranslation(dictionary, names[k]).Some? ==>
      && TranslatedPrefix(dictionary, names) == (added + [FindTranslation(dictionary, names[k]).value.value]) + TranslatedPrefix(dictionary, names[k + 1..])
      && AllTranslated(dictionary, names) == AllTranslated(dictionary, names[k + 1..])
  {
    var rest := names[k..];
    assert rest[0] == names[k] && rest[1..] == names[k + 1..];
    AllTranslatedCons(dictionary, rest);
    TranslatedPrefixCons(dictionary, rest);
    if FindTranslation(dictionary, names[k]).None? {
      assert added + [] == added;
    }
  }

  /** The names are translated in full exactly when each has a translation, and then name by name. */
  lemma {:induction false} TranslatedPrefixComplete(dictionary: Option<Dictionary>, names: seq<string>)
    ensures |TranslatedPrefix(dictionary, names)| == |names| <==> AllTranslated(dictionary, names)
    ensures AllTranslated(dictionary, names) ==>
      forall k :: 0 <= k < |names| ==> TranslatedPrefix(dictionary, names)[k] == FindTranslation(dictionary, names[k]).value.value
    decreases |names|
  {
    if names != [] {
      TranslatedPrefixComplete(dictionary, names[1..]);
      if FindTranslation(dictionary, names[0]).Some? {
        if AllTranslated(dictionary, names[1..]) {
          forall k | 0 <= k < |names|
            ensures FindTranslation(dictionary, names[k]).Some?
          {
            if k > 0 {
              assert names[k] == names[1..][k - 1];
            }
          }
        }
        if AllTranslated(dictionary, names) {
          forall k | 0 <= k < |names[1..]|
            ensures FindTranslation(dictionary, names[1..][k]).Some?
          {
            assert names[1..][k] == names[k + 1];
          }
        }
      }
    }
  }
}
