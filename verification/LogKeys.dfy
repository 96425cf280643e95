/** Flattened field keys: group paths joined by dots, with dots and backslashes inside a name escaped. */
module LogKeys {
  const ESCAPE: char := '\\'
  const DOT: char := '.'

  /** Puts a backslash before every occurrence of a character. */
  function Escaped(s: string, c: char): string {
    if s == [] then [] else (if s[0] == c then [ESCAPE, c] else [s[0]]) + Escaped(s[1..], c)
  }

  function EscapedPart(part: string): string { Escaped(Escaped(part, ESCAPE), DOT) }

  function Joined(parts: seq<string>): string
    requires parts != []
  {
    if |parts| == 1 then parts[0] else parts[0] + [DOT] + Joined(parts[1..])
  }

  function EscapedParts(parts: seq<string>): (escaped: seq<string>)
    ensures |escaped| == |parts|
  {
    seq(|parts|, i requires 0 <= i < |parts| => EscapedPart(parts[i]))
  }

  function FlattenKey(parts: seq<string>): string
    requires parts != []
  {
    Joined(EscapedParts(parts))
  }

  function SplitFrom(key: string, segments: seq<string>, current: string, escaped: bool): seq<string>
    decreases |key|
  {
    if key == [] then segments + [if escaped then current + [ESCAPE] else current]
    else if escaped then SplitFrom(key[1..], segments, current + [key[0]], false)
    else if key[0] == ESCAPE then SplitFrom(key[1..], segments, current, true)
    else if key[0] == DOT then SplitFrom(key[1..], segments + [current], [], false)
    else SplitFrom(key[1..], segments, current + [key[0]], false)
  }

  method SplitFlattenedKey(key: string) returns (segments: seq<string>)
    ensures segments == SplitFrom(key, [], [], false)
  {
    segments := [];
    var current: string, escaped := [], false;
    for i := 0 to |key|
      invariant SplitFrom(key, [], [], false) == SplitFrom(key[i..], segments, current, escaped)
    {
      assert key[i..][1..] == key[i + 1..];
      if escaped {
        current, escaped := current + [key[i]], false;
      } else if key[i] == ESCAPE {
        escaped := true;
      } else if key[i] == DOT {
        segments, current := segments + [current], [];
      } else {
        current := current + [key[i]];
      }
    }
    if escaped { current := current + [ESCAPE]; }
    segments := segments + [current];
  }

  function EscapedChar(c: char): string { if c == ESCAPE || c == DOT then [ESCAPE, c] else [c] }

  lemma {:induction false} EscapedOneMore(part: string)
    requires part != []
    ensures EscapedPart(part) == EscapedChar(part[0]) + EscapedPart(part[1..])
  {
    var rest := Escaped(part[1..], ESCAPE);
    if part[0] == ESCAPE {
      assert Escaped(part, ESCAPE)[1..] == [ESCAPE] + rest;
      assert ([ESCAPE] + rest)[1..] == rest;
      assert Escaped([ESCAPE] + rest, DOT) == [ESCAPE] + Escaped(rest, DOT);
    } else {
      assert Escaped(part, ESCAPE)[1..] == rest;
    }
  }

  /** Reading an escaped name puts back the name. */
  lemma {:induction false} SplitReadsPart(part: string, rest: string, segments: seq<string>, current: string)
    ensures SplitFrom(EscapedPart(part) + rest, segments, current, false) ==
            SplitFrom(rest, segments, current + part, false)
    decreases |part|
  {
    if part == [] {
      assert EscapedPart(part) + rest == rest && current + part == current;
    } else {
      EscapedOneMore(part);
      SplitReadsPart(part[1..], rest, segments, current + [part[0]]);
      SplitReadsChar(part[0], EscapedPart(part[1..]) + rest, segments, current);
      assert EscapedPart(part) + rest == EscapedChar(part[0]) + (EscapedPart(part[1..]) + rest);
      assert current + [part[0]] + part[1..] == current + part;
      hide SplitFrom, EscapedPart, EscapedChar;
    }
  }

  lemma SplitReadsChar(c: char, rest: string, segments: seq<string>, current: string)
    ensures SplitFrom(EscapedChar(c) + rest, segments, current, false) ==
            SplitFrom(rest, segments, current + [c], false)
  {
    var key := EscapedChar(c) + rest;
    if c == ESCAPE || c == DOT {
      assert key[1..] == [c] + rest && ([c] + rest)[1..] == rest;
    } else {
      assert key[1..] == rest;
    }
  }

  /**
   Keys that no flattening gives: a backslash takes away the meaning of whatever follows it, and one at the very end
   stands for itself.
   */
  lemma OtherKeys(parts: seq<string>, c: char, rest: string, segments: seq<string>, current: string)
    requires parts != []
    ensures SplitFrom([ESCAPE, c] + rest, segments, current, false) == SplitFrom(rest, segments, current + [c], false)
    ensures SplitFrom(FlattenKey(parts) + [ESCAPE], [], [], false)
            == parts[..|parts| - 1] + [parts[|parts| - 1] + [ESCAPE]]
  {
    assert ([ESCAPE, c] + rest)[1..] == [c] + rest && ([c] + rest)[1..] == rest;
    SplitReadsUpTo(parts, [ESCAPE], []);
    assert [] + parts[..|parts| - 1] == parts[..|parts| - 1];
    assert [ESCAPE][1..] == [];
  }

  /** After a flattened path the names but the last are read, and the last is being read. */
  lemma {:induction false} SplitReadsUpTo(parts: seq<string>, tail: string, segments: seq<string>)
    requires parts != []
    ensures SplitFrom(FlattenKey(parts) + tail, segments, [], false)
            == SplitFrom(tail, segments + parts[..|parts| - 1], parts[|parts| - 1], false)
    decreases |parts|
  {
    var first := parts[0];
    assert [] + first == first;
    if |parts| == 1 {
      SplitReadsPart(first, tail, segments, []);
      assert segments + parts[..0] == segments;
    } else {
      var rest := FlattenKey(parts[1..]);
      assert EscapedParts(parts)[1..] == EscapedParts(parts[1..]);
      assert FlattenKey(parts) + tail == EscapedPart(first) + ([DOT] + (rest + tail));
      SplitReadsPart(first, [DOT] + (rest + tail), segments, []);
      assert ([DOT] + (rest + tail))[1..] == rest + tail;
      SplitReadsUpTo(parts[1..], tail, segments + [first]);
      assert segments + [first] + parts[1..][..|parts| - 2] == segments + parts[..|parts| - 1];
    }
  }

  /** Splitting undoes flattening, whatever dots and backslashes the names contain. */
  lemma SplitUndoesFlatten(parts: seq<string>)
    requires parts != []
    ensures SplitFrom(FlattenKey(parts), [], [], false) == parts
  {
    SplitReadsUpTo(parts, [], []);
    assert FlattenKey(parts) + [] == FlattenKey(parts);
    assert [] + parts[..|parts| - 1] + [parts[|parts| - 1]] == parts;
    hide FlattenKey;
  }

  predicate FieldKeyHasSuffix(key: string, name: string) {
    var segments := SplitFrom(key, [], [], false);
    segments != [] && segments[|segments| - 1] == name
  }

  /** A field matches a name exactly when the name is the last of its path; distinct paths have distinct keys. */
  lemma SuffixIsLastName(parts: seq<string>, other: seq<string>, name: string)
    requires parts != [] && other != []
    ensures FieldKeyHasSuffix(FlattenKey(parts), name) <==> parts[|parts| - 1] == name
    ensures FlattenKey(parts) == FlattenKey(other) <==> parts == other
  {
    SplitUndoesFlatten(parts);
    SplitUndoesFlatten(other);
    hide SplitFrom, FlattenKey;
  }
}
