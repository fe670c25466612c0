/** Small datatypes and text functions shared by the models of the separate components. */
module Basics {

  datatype Option<+T> = None | Some(value: T)

  /** One byte of a Go string. */
  newtype byte = x: int | 0 <= x < 256

  /** One code point. */
  newtype rune = x: int | 0 <= x <= 0x10FFFF

  /** Go's unicode.IsSpace: the characters strings.TrimSpace removes. */
  predicate IsSpace(c: char) {
    || '\t' <= c <= '\r'
    || c in {' ', '\U{85}', '\U{A0}', '\U{1680}', '\U{2028}', '\U{2029}', '\U{202F}', '\U{205F}', '\U{3000}'}
    || '\U{2000}' <= c <= '\U{200A}'
  }

  function TrimStart(s: string): string {
    if s != [] && IsSpace(s[0]) then TrimStart(s[1..]) else s
  }

  function TrimEnd(s: string): string {
    if s != [] && IsSpace(s[|s| - 1]) then TrimEnd(s[..|s| - 1]) else s
  }

  /** strings.TrimSpace */
  function TrimSpace(s: string): string {
    TrimEnd(TrimStart(s))
  }

  predicate Blank(s: string) {
    TrimSpace(s) == ""
  }

  predicate AllSpaces(s: string) {
    forall i | 0 <= i < |s| :: IsSpace(s[i])
  }

  /** Empty, or without a space at either end. */
  predicate NoSpaceAround(s: string) {
    s != "" ==> !IsSpace(s[0]) && !IsSpace(s[|s| - 1])
  }

  lemma {:induction false} TrimStartCuts(s: string, a: string, x: string)
    requires s == a + x && AllSpaces(a) && (x != "" ==> !IsSpace(x[0]))
    ensures TrimStart(s) == x
  {
    if a == "" {
      assert s == x;
    } else {
      assert s[0] == a[0] && s[1..] == a[1..] + x;
      TrimStartCuts(s[1..], a[1..], x);
    }
  }

  lemma {:induction false} TrimEndCuts(s: string, x: string, d: string)
    requires s == x + d && AllSpaces(d) && (x != "" ==> !IsSpace(x[|x| - 1]))
    ensures TrimEnd(s) == x
  {
    if d == "" {
      assert s == x;
    } else {
      assert s[|s| - 1] == d[|d| - 1] && s[..|s| - 1] == x + d[..|d| - 1];
      TrimEndCuts(s[..|s| - 1], x, d[..|d| - 1]);
    }
  }

  /** The part of s from i on, whose start is where the spaces end. */
  lemma {:induction false} TrimStartFrom(s: string) returns (i: nat)
    ensures i <= |s| && AllSpaces(s[..i]) && (i < |s| ==> !IsSpace(s[i])) && TrimStart(s) == s[i..]
  {
    if s != "" && IsSpace(s[0]) {
      i := TrimStartFrom(s[1..]);
      i := i + 1;
      assert s[..i] == [s[0]] + s[1..][..i - 1];
    } else {
      i := 0;
      assert s[0..] == s;
    }
  }

  lemma {:induction false} TrimEndUpTo(s: string) returns (j: nat)
    ensures j <= |s| && AllSpaces(s[j..]) && (j > 0 ==> !IsSpace(s[j - 1])) && TrimEnd(s) == s[..j]
  {
    if s != "" && IsSpace(s[|s| - 1]) {
      j := TrimEndUpTo(s[..|s| - 1]);
      assert s[j..] == s[..|s| - 1][j..] + [s[|s| - 1]];
    } else {
      j := |s|;
      assert s[..j] == s;
    }
  }

  /** Trimming removes the spaces around a text and nothing else. */
  lemma TrimSpaceIs(a: string, x: string, d: string)
    requires AllSpaces(a) && NoSpaceAround(x) && AllSpaces(d)
    ensures TrimSpace(a + x + d) == x
  {
    if x == "" {
      TrimStartCuts(a + x + d, a + d, "");
    } else {
      TrimStartCuts(a + x + d, a, x + d);
      TrimEndCuts(x + d, x, d);
    }
  }

  /** Every text is such a text: spaces, what trimming leaves, and spaces. */
  lemma TrimSpaceSplits(s: string) returns (a: string, d: string)
    ensures AllSpaces(a) && NoSpaceAround(TrimSpace(s)) && AllSpaces(d)
    ensures s == a + TrimSpace(s) + d
  {
    var i := TrimStartFrom(s);
    var t := TrimStart(s);
    var j := TrimEndUpTo(t);
    a, d := s[..i], t[j..];
    assert s == a + t && t == t[..j] + d;
  }

  lemma BlankExactly(s: string)
    ensures Blank(s) <==> AllSpaces(s)
  {
    var a, d := TrimSpaceSplits(s);
    if AllSpaces(s) {
      TrimSpaceIs(s, "", "");
      assert s + "" + "" == s;
    }
  }

  lemma ConcatThree<T>(a: seq<T>, b: seq<T>, c: seq<T>)
    ensures a + b + c == a + (b + c)
  {
  }

  lemma SubsetSize<T>(a: set<T>, b: set<T>)
    requires a <= b
    ensures |a| <= |b|
  {
    assert b == a + (b - a);
  }
}
