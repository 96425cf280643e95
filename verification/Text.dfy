/** The string helpers the services compare addresses and identifiers with. */
module Text {

  predicate IsSpace(c: char) {
    c == ' ' || '\t' <= c <= '\r'
  }

  /** strings.TrimSpace on the ASCII blanks. */
  function Trim(s: string): string {
    TrimRight(TrimLeft(s))
  }

  function TrimLeft(s: string): string {
    if s != "" && IsSpace(s[0]) then TrimLeft(s[1..]) else s
  }

  function TrimRight(s: string): string {
    if s != "" && IsSpace(s[|s| - 1]) then TrimRight(s[..|s| - 1]) else s
  }

  function ToLower(s: string): string {
    seq(|s|, i requires 0 <= i < |s| => if 'A' <= s[i] <= 'Z' then s[i] - 'A' + 'a' else s[i])
  }

  function NormalizeEmail(s: string): string {
    ToLower(Trim(s))
  }

  /** Two blank addresses are never the same mailbox. */
  predicate SameEmail(left: string, right: string) {
    NormalizeEmail(left) != "" && NormalizeEmail(left) == NormalizeEmail(right)
  }

  // ---------------------------------------------------------------- what they mean

  /** Tabulator, line feed, vertical tabulator, form feed, carriage return and space. */
  predicate IsBlank(c: char) { c as int in {9, 10, 11, 12, 13, 32} }

  predicate Blank(s: string) {
    forall i :: 0 <= i < |s| ==> IsBlank(s[i])
  }

  predicate Unpadded(s: string) {
    s != "" ==> !IsBlank(s[0]) && !IsBlank(s[|s| - 1])
  }

  lemma {:induction false} LeftPart(s: string) returns (left: string)
    ensures s == left + TrimLeft(s) && Blank(left)
    ensures TrimLeft(s) != "" ==> !IsBlank(TrimLeft(s)[0])
  {
    if s != "" && IsSpace(s[0]) {
      left := LeftPart(s[1..]);
      left := [s[0]] + left;
      assert s == [s[0]] + s[1..];
    } else {
      left := "";
    }
  }

  lemma {:induction false} RightPart(s: string) returns (right: string)
    ensures s == TrimRight(s) + right && Blank(right) && TrimRight(s) <= s
    ensures TrimRight(s) != "" ==> !IsBlank(TrimRight(s)[|TrimRight(s)| - 1])
  {
    if s != "" && IsSpace(s[|s| - 1]) {
      right := RightPart(s[..|s| - 1]);
      right := right + [s[|s| - 1]];
      assert s == s[..|s| - 1] + [s[|s| - 1]];
    } else {
      right := "";
    }
  }

  /** Trimming takes blanks away at both ends, as many as there are, and nothing else. */
  lemma TrimMeans(s: string) returns (left: string, right: string)
    ensures s == left + Trim(s) + right && Blank(left) && Blank(right) && Unpadded(Trim(s))
  {
    left := LeftPart(s);
    right := RightPart(TrimLeft(s));
    assert s == left + (Trim(s) + right);
  }

  /** There is only one way to do that. */
  lemma OneCore(a: string, x: string, b: string, c: string, y: string, d: string)
    requires a + x + b == c + y + d
    requires Blank(a) && Blank(b) && Blank(c) && Blank(d) && Unpadded(x) && Unpadded(y)
    ensures x == y
  {
    var s := a + x + b;
    assert x != "" ==> s[|a|] == x[0] && s[|a| + |x| - 1] == x[|x| - 1];
    assert y != "" ==> s[|c|] == y[0] && s[|c| + |y| - 1] == y[|y| - 1];
    if x != "" && y != "" {
      assert |a| == |c| && |x| == |y|;
      assert x == s[|a|..|a| + |x|];
    }
  }

  lemma TrimOf(a: string, x: string, b: string)
    requires Blank(a) && Blank(b) && Unpadded(x)
    ensures Trim(a + x + b) == x
  {
    var left, right := TrimMeans(a + x + b);
    OneCore(a, x, b, left, Trim(a + x + b), right);
    hide Trim, Blank, Unpadded;
  }

  lemma TrimTwice(s: string)
    ensures Trim(Trim(s)) == Trim(s)
  {
    var left, right := TrimMeans(s);
    TrimOf("", Trim(s), "");
    assert "" + Trim(s) + "" == Trim(s);
    hide Trim, Unpadded;
  }

  /** Equal, or an ASCII capital and its small letter. */
  predicate Alike(p: char, q: char) {
    p == q || (65 <= p as int <= 90 && q as int == p as int + 32) || (65 <= q as int <= 90 && p as int == q as int + 32)
  }

  predicate SameLetters(x: string, y: string) {
    |x| == |y| && forall i :: 0 <= i < |x| ==> Alike(x[i], y[i])
  }

  lemma LowerAlike(x: string, y: string)
    ensures ToLower(x) == ToLower(y) <==> SameLetters(x, y)
  {
    if ToLower(x) == ToLower(y) {
      forall i | 0 <= i < |x| ensures Alike(x[i], y[i]) { assert ToLower(x)[i] == ToLower(y)[i]; }
    }
  }

  /** Two addresses are the same mailbox if and only if, without the blanks around them, they have the same letters. */
  lemma SameEmailMeans(a: string, x: string, b: string, c: string, y: string, d: string)
    requires Blank(a) && Blank(b) && Blank(c) && Blank(d) && Unpadded(x) && Unpadded(y)
    ensures SameEmail(a + x + b, c + y + d) <==> x != "" && SameLetters(x, y)
  {
    TrimOf(a, x, b);
    TrimOf(c, y, d);
    LowerAlike(x, y);
    assert |ToLower(x)| == |x|;
    hide Trim, ToLower, Blank, Unpadded, SameLetters;
  }
}
