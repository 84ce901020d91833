/**
 * `escapeName`: the sanitising of a new playlist's name, identical in both
 * revisions. Every character outside a fixed allowed set becomes '?'.
 */
module Escaping {
  import Persistence

  /**
   * The allowed set of the source's `escapeName`: space, '!', '#' to '&',
   * '(' to '+', '-', '/' to '@' (the digits among them), 'A' to 'X', 'Z',
   * '[', ']', and 'a' to '~' (the lower-case letters among them). It leaves out every control character, the double quote, the
   * apostrophe, ',', '.', the backslash, '^', '_', the backquote, everything
   * beyond '~' and, unlike every other ASCII letter, 'Y'.
   */
  predicate Allowed(c: char)
  {
    || c == ' ' || c == '!' || '#' <= c <= '&' || '(' <= c <= '+' || c == '-'
    || '/' <= c <= '@' || 'A' <= c <= 'X' || c == 'Z' || c == '[' || c == ']'
    || 'a' <= c <= '~'
  }

  function EscapeChar(c: char): char
  {
    if Allowed(c) then c else '?'
  }

  function Escaped(name: string): (r: string)
    ensures |r| == |name|
    ensures forall i :: 0 <= i < |name| ==> Allowed(r[i])
    ensures forall i :: 0 <= i < |name| ==> (r[i] == name[i] <==> Allowed(name[i]))
    ensures forall i :: 0 <= i < |name| && !Allowed(name[i]) ==> r[i] == '?'
  {
    seq(|name|, i requires 0 <= i < |name| => EscapeChar(name[i]))
  }

  /** The loop of `escapeName`: replace every character not in the allowed set. */
  method EscapeName(name: string) returns (result: string)
    ensures |result| == |name|
    ensures forall i :: 0 <= i < |name| ==> result[i] == (if Allowed(name[i]) then name[i] else '?')
    ensures result == Escaped(name)
  {
    result := name;
    for index := 0 to |result|
      invariant |result| == |name|
      invariant forall i :: 0 <= i < index ==> result[i] == EscapeChar(name[i])
      invariant forall i :: index <= i < |name| ==> result[i] == name[i]
    {
      if !Allowed(result[index]) {
        result := result[index := '?'];
      }
    }
  }

  /** Escaping an escaped name changes nothing ('?' is itself allowed). */
  lemma EscapedIdempotent(name: string)
    ensures Escaped(Escaped(name)) == Escaped(name)
  {
  }

  /** An escaped name holds only characters the store format carries unescaped. */
  lemma {:induction false} EscapedStorable(name: string)
    ensures Persistence.StorableName(Escaped(name))
  {
    forall i | 0 <= i < |name|
      ensures Persistence.Unescaped(Escaped(name)[i])
    {
      assert Allowed(Escaped(name)[i]);
    }
  }

  /** The characters the store format or the generated markup cannot carry are all replaced. */
  lemma EscapedRejects()
    ensures EscapeChar('"') == '?' && EscapeChar('\\') == '?' && EscapeChar('\'') == '?'
    ensures EscapeChar(',') == '?' && EscapeChar('.') == '?' && EscapeChar('_') == '?'
    ensures EscapeChar('Y') == '?' && EscapeChar('y') == 'y' && EscapeChar('?') == '?'
  {
  }
}
