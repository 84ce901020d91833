/**
 * Persistence of a list of names in the browser's key-value store.
 *
 * A list is written as its names, each between double quotes, separated by
 * ", " (the `toString` fold of the list classes), and read back by wrapping
 * the stored text in brackets and parsing it as a JSON array. Only the
 * format that `toString` writes is parsed here: a name may hold any
 * character that a JSON string admits unescaped (section 7 of RFC 8259),
 * that is anything from U+0020 up except '"' and '\'.
 */
module Persistence {
  import opened Options

  /** The browser's `localStorage`: string keys mapped to string values. */
  class LocalStorage {
    var entries: map<string, string>

    constructor (initial: map<string, string>)
      ensures entries == initial
    {
      entries := initial;
    }

    function GetItem(key: string): Option<string>
      reads this
    {
      if key in entries then Some(entries[key]) else None
    }

    method SetItem(key: string, value: string)
      modifies this
      ensures entries == old(entries)[key := value]
    {
      entries := entries[key := value];
    }

    method RemoveItem(key: string)
      modifies this
      ensures entries == old(entries) - {key}
    {
      entries := entries - {key};
    }
  }

  /** A character a JSON string may hold without an escape. */
  predicate Unescaped(c: char)
  {
    ' ' <= c && c != '"' && c != '\\'
  }

  /** A name that survives the store-and-load round trip. */
  predicate StorableName(name: string)
  {
    forall i :: 0 <= i < |name| ==> Unescaped(name[i])
  }

  predicate StorableNames(names: seq<string>)
  {
    forall k :: 0 <= k < |names| ==> StorableName(names[k])
  }

  function Quote(name: string): string
  {
    ['"'] + name + ['"']
  }

  /** The loop of `toString`: a separator before every name but the first. */
  function AppendNames(acc: string, names: seq<string>): string
    decreases |names|
  {
    if names == [] then acc
    else AppendNames((if |acc| > 0 then acc + ", " else acc) + Quote(names[0]), names[1..])
  }

  /** The names after the first one, each preceded by ", ". */
  function Tail(names: seq<string>): string
    decreases |names|
  {
    if names == [] then "" else ", " + Quote(names[0]) + Tail(names[1..])
  }

  /** The text of the JSON array's body: quoted names separated by ", ". */
  function Joined(names: seq<string>): string
  {
    if names == [] then "" else Quote(names[0]) + Tail(names[1..])
  }

  lemma {:induction false} AppendNamesTail(acc: string, names: seq<string>)
    requires |acc| > 0
    ensures AppendNames(acc, names) == acc + Tail(names)
    decreases |names|
  {
    if names != [] {
      AppendNamesTail(acc + ", " + Quote(names[0]), names[1..]);
      TailFront(names);
      Regrouped(acc, ", ", Quote(names[0]), Tail(names[1..]));
    }
  }

  /** Four texts joined in one order of grouping equal the same texts in the other. */
  lemma Regrouped(a: string, b: string, c: string, d: string)
    ensures a + b + c + d == a + (b + (c + d))
  {
  }

  /** `toString`: the stored text is the body of a JSON array of the names. */
  function ToString(names: seq<string>): (r: string)
    ensures r == Joined(names)
    ensures r == "" <==> names == []
  {
    if names == [] then AppendNames("", names)
    else
      assert "" + Quote(names[0]) == Quote(names[0]);
      AppendNamesTail(Quote(names[0]), names[1..]);
      AppendNames("", names)
  }

  /**
   * Reads one JSON string body, up to its closing quote: the name and the
   * text after the quote, or None where JSON.parse would throw (or where a
   * name would need an escape, which this model does not decode).
   */
  function ParseString(s: string): (r: Option<(string, string)>)
    ensures r.Some? ==> StorableName(r.value.0) && s == r.value.0 + ['"'] + r.value.1
    decreases |s|
  {
    if s == [] then None
    else if s[0] == '"' then Some(("", s[1..]))
    else if !Unescaped(s[0]) then None
    else match ParseString(s[1..])
      case None => None
      case Some((n, rest)) => Some(([s[0]] + n, rest))
  }

  /** `JSON.parse('[' + s + ']')` on the format `toString` writes; None where it would throw. */
  function ParseNames(s: string): (r: Option<seq<string>>)
    ensures r.Some? ==> r.value != [] && StorableNames(r.value)
    decreases |s|
  {
    if s == [] || s[0] != '"' then None
    else match ParseString(s[1..])
      case None => None
      case Some((n, rest)) =>
        if rest == [] then Some([n])
        else if |rest| >= 2 && rest[..2] == ", " then
          match ParseNames(rest[2..])
          case None => None
          case Some(ns) => Some([n] + ns)
        else None
  }

  lemma {:induction false} ParseQuoted(name: string, rest: string)
    requires StorableName(name)
    ensures ParseString(name + ['"'] + rest) == Some((name, rest))
    decreases |name|
  {
    if name == [] {
      assert name + ['"'] + rest == ['"'] + rest;
    } else {
      assert (name + ['"'] + rest)[1..] == name[1..] + ['"'] + rest;
      ParseQuoted(name[1..], rest);
      assert [name[0]] + name[1..] == name;
    }
  }

  lemma {:induction false} ParseQuotedTail(name: string, names: seq<string>)
    requires StorableName(name) && StorableNames(names)
    ensures ParseNames(Quote(name) + Tail(names)) == Some([name] + names)
    decreases |names|
  {
    if names == [] {
      assert Quote(name) + Tail(names) == Quote(name);
      ParseQuotedAlone(name);
      assert [name] + names == [name];
    } else {
      StorableNamesTail(names);
      ParseQuotedTail(names[0], names[1..]);
      assert [names[0]] + names[1..] == names;
      ParseQuotedNext(name, names);
    }
  }

  /** One more quoted name in front of a tail that parses. */
  lemma ParseQuotedNext(name: string, names: seq<string>)
    requires StorableName(name) && names != []
    requires ParseNames(Quote(names[0]) + Tail(names[1..])) == Some(names)
    ensures ParseNames(Quote(name) + Tail(names)) == Some([name] + names)
  {
    TailFront(names);
    ParseQuotedSeparated(name, Quote(names[0]) + Tail(names[1..]));
  }

  /** The separated tail of a nonempty list: ", " before the first quoted name and the tail of the others. */
  lemma TailFront(names: seq<string>)
    requires names != []
    ensures Tail(names) == ", " + (Quote(names[0]) + Tail(names[1..]))
  {
    assert ", " + Quote(names[0]) + Tail(names[1..]) == ", " + (Quote(names[0]) + Tail(names[1..]));
  }

  lemma StorableNamesTail(names: seq<string>)
    requires names != [] && StorableNames(names)
    ensures StorableName(names[0]) && StorableNames(names[1..])
  {
    forall i | 0 <= i < |names[1..]|
      ensures StorableName(names[1..][i])
    {
      assert names[1..][i] == names[i + 1];
    }
  }

  /** One quoted name alone parses to that one name. */
  lemma ParseQuotedAlone(name: string)
    requires StorableName(name)
    ensures ParseNames(Quote(name)) == Some([name])
  {
    var s := Quote(name);
    assert s[1..] == name + ['"'] + [];
    ParseQuoted(name, []);
  }

  /** A quoted name, ", " and a text that parses, parse to the name followed by that text's names. */
  lemma ParseQuotedSeparated(name: string, more: string)
    requires StorableName(name) && ParseNames(more).Some?
    ensures ParseNames(Quote(name) + (", " + more)) == Some([name] + ParseNames(more).value)
  {
    var rest := ", " + more;
    QuotedOpens(name, rest);
    ParseQuoted(name, rest);
    assert rest[..2] == ", " && rest[2..] == more;
  }

  /** A quoted name followed by more text: '"' first, then the name, '"' and the more. */
  lemma QuotedOpens(name: string, rest: string)
    ensures |Quote(name) + rest| > 0 && (Quote(name) + rest)[0] == '"'
    ensures (Quote(name) + rest)[1..] == name + ['"'] + rest
  {
  }

  /** Whatever `toString` writes for storable names, loading parses back. */
  lemma ParseJoined(names: seq<string>)
    requires names != [] && StorableNames(names)
    ensures ParseNames(Joined(names)) == Some(names)
  {
    ParseQuotedTail(names[0], names[1..]);
    assert [names[0]] + names[1..] == names;
  }

  /** Whatever loading accepts is exactly what `toString` writes for the names it yields. */
  lemma JoinedParse(s: string)
    requires ParseNames(s).Some?
    ensures var names := ParseNames(s).value;
      names != [] && StorableNames(names) && Joined(names) == s
  {
    ParsedJoined(s);
  }

  /** The text loading accepts is the joined quoted names it yields. */
  lemma {:induction false} ParsedJoined(s: string)
    requires ParseNames(s).Some?
    ensures Joined(ParseNames(s).value) == s
    decreases |s|
  {
    ParsedHead(s);
    var n, rest := ParseString(s[1..]).value.0, ParseString(s[1..]).value.1;
    if rest != [] {
      var tail := ParseNames(rest[2..]).value;
      ParsedJoined(rest[2..]);
      JoinedCons(n, tail);
    }
  }

  /** How loading splits its text: a quoted first name, then nothing or ", " and the text of the other names. */
  lemma ParsedHead(s: string)
    requires ParseNames(s).Some?
    ensures var n, rest := ParseString(s[1..]).value.0, ParseString(s[1..]).value.1;
      && (rest == [] ==> s == Quote(n) && ParseNames(s).value == [n])
      && (rest != [] ==> (|rest| >= 2 && ParseNames(rest[2..]).Some?
        && s == Quote(n) + (", " + rest[2..])
        && ParseNames(s).value == [n] + ParseNames(rest[2..]).value))
  {
    var n, rest := ParseString(s[1..]).value.0, ParseString(s[1..]).value.1;
    QuotedSplit(s, n, rest);
    if rest != [] {
      SeparatorSplit(rest);
    }
  }

  /** A text that opens with '"' and goes on with a name, '"' and more is that name quoted, then the more. */
  lemma QuotedSplit(s: string, n: string, rest: string)
    requires s != [] && s[0] == '"' && s[1..] == n + ['"'] + rest
    ensures s == Quote(n) + rest
  {
    assert s == [s[0]] + s[1..];
  }

  /** A text that opens with ", " is ", " and the text after it. */
  lemma SeparatorSplit(rest: string)
    requires |rest| >= 2 && rest[..2] == ", "
    ensures rest == ", " + rest[2..]
  {
    assert rest == rest[..2] + rest[2..];
  }

  /** The joined text of two or more names: the first quoted, ", ", then the joined rest. */
  lemma JoinedCons(n: string, tail: seq<string>)
    requires tail != []
    ensures Joined([n] + tail) == Quote(n) + (", " + Joined(tail))
  {
    assert ([n] + tail)[1..] == tail;
    TailFront(tail);
  }

  /**
   * The store after `store()`: nothing when the list has no storage key
   * (JavaScript's falsy `undefined` or empty key), the key removed for an
   * empty list, else the key set to the list's text.
   */
  function Stored(entries: map<string, string>, storageId: string, names: seq<string>): map<string, string>
  {
    if storageId == "" then entries
    else if names != [] then entries[storageId := ToString(names)]
    else entries - {storageId}
  }

  /** Storing touches only the list's own key, which holds a non-empty text exactly when there are names. */
  lemma StoredEffect(entries: map<string, string>, storageId: string, names: seq<string>)
    ensures var r := Stored(entries, storageId, names);
      forall k :: k != storageId ==> (k in r <==> k in entries) && (k in r ==> r[k] == entries[k])
    ensures var r := Stored(entries, storageId, names);
      storageId != "" ==> (storageId in r <==> names != []) && (names != [] ==> r[storageId] != "")
  {
  }

  /**
   * The names `load()` adds from the store, or None where `JSON.parse` throws:
   * no key, a missing entry or an empty entry give no names.
   */
  function StoredNames(entries: map<string, string>, storageId: string): (r: Option<seq<string>>)
    ensures r.Some? ==> StorableNames(r.value)
    ensures storageId == "" || storageId !in entries ==> r == Some([])
  {
    if storageId == "" || storageId !in entries || entries[storageId] == "" then Some([])
    else ParseNames(entries[storageId])
  }

  /** Storing storable names and loading them from the same store gives the names back. */
  lemma StoreLoadRoundTrip(entries: map<string, string>, storageId: string, names: seq<string>)
    requires storageId != "" && StorableNames(names)
    ensures StoredNames(Stored(entries, storageId, names), storageId) == Some(names)
  {
    if names != [] {
      ParseJoined(names);
    }
  }

  /** Writing back the names just loaded from a key leaves the store as it was. */
  lemma RestoreLoaded(entries: map<string, string>, storageId: string)
    requires StoredNames(entries, storageId).Some?
    requires StoredNames(entries, storageId).value != []
    ensures Stored(entries, storageId, StoredNames(entries, storageId).value) == entries
  {
    JoinedParse(entries[storageId]);
  }

  /** The store without every non-empty key of the list: what clearing each of those lists leaves. */
  function Removed(entries: map<string, string>, storageIds: seq<string>): (r: map<string, string>)
    ensures forall k :: k in storageIds && k != "" ==> k !in r
    ensures forall k :: k in entries && k !in storageIds ==> k in r && r[k] == entries[k]
  {
    entries - (set k | k in storageIds && k != "")
  }

  /** Clearing one more list removes its key, if it has one. */
  lemma RemovedStep(entries: map<string, string>, storageIds: seq<string>, storageId: string)
    ensures Stored(Removed(entries, storageIds), storageId, []) == Removed(entries, storageIds + [storageId])
  {
    assert (set k | k in storageIds + [storageId] && k != "") ==
      (set k | k in storageIds && k != "") + (if storageId == "" then {} else {storageId});
  }

  /**
   * Whether loading a list of playlists gets through: the list's own text
   * and the text under `storagePrefix + name` of every name in it parse.
   */
  predicate Loadable(entries: map<string, string>, storageId: string, storagePrefix: string)
  {
    var names := StoredNames(entries, storageId);
    names.Some? && forall k :: 0 <= k < |names.value| ==> StoredNames(entries, storagePrefix + names.value[k]).Some?
  }
}
