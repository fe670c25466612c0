/** Well-formed UTF-8 as RFC 3629 section 4 defines it, and where a byte string may be cut. */
module Utf8 {
  import opened Basics

  predicate Tail(b: byte) {
    0x80 <= b <= 0xBF
  }

  predicate Tails(s: seq<byte>, from: nat, to: nat) {
    to <= |s| && forall i | from <= i < to :: Tail(s[i])
  }

  /** The length of the character a string starts with, or 0 when it starts with none. */
  function CharLen(s: seq<byte>): (n: nat)
    ensures n <= |s|
  {
    if s == [] then 0
    else if s[0] <= 0x7F then 1
    else if 0xC2 <= s[0] <= 0xDF && Tails(s, 1, 2) then 2
    else if 0xE0 <= s[0] <= 0xEF && Tails(s, 1, 3)
            && (s[0] == 0xE0 ==> 0xA0 <= s[1]) && (s[0] == 0xED ==> s[1] <= 0x9F) then 3
    else if 0xF0 <= s[0] <= 0xF4 && Tails(s, 1, 4)
            && (s[0] == 0xF0 ==> 0x90 <= s[1]) && (s[0] == 0xF4 ==> s[1] <= 0x8F) then 4
    else 0
  }

  predicate WellFormed(s: seq<byte>)
    decreases |s|
  {
    s == [] || (CharLen(s) > 0 && WellFormed(s[CharLen(s)..]))
  }

  /** A character is recognised by its own bytes, whatever follows. */
  lemma CharLenLocal(s: seq<byte>, t: seq<byte>)
    requires CharLen(s) > 0 && |t| >= CharLen(s) && t[..CharLen(s)] == s[..CharLen(s)]
    ensures CharLen(t) == CharLen(s)
  {
    var n := CharLen(s);
    assert forall i | 0 <= i < n :: t[i] == t[..n][i] == s[..n][i] == s[i];
  }

  lemma {:induction false} WellFormedConcat(a: seq<byte>, b: seq<byte>)
    requires WellFormed(a) && WellFormed(b)
    ensures WellFormed(a + b)
    decreases |a|
  {
    if a == [] {
      assert a + b == b;
    } else {
      var n := CharLen(a);
      CharLenLocal(a, a + b);
      assert (a + b)[n..] == a[n..] + b;
      WellFormedConcat(a[n..], b);
    }
  }

  /** Cutting a well-formed string right after an ASCII byte leaves two well-formed strings. */
  lemma {:induction false} CutAfterAscii(s: seq<byte>, k: nat)
    requires WellFormed(s) && 0 < k <= |s| && s[k - 1] <= 0x7F
    ensures WellFormed(s[..k]) && WellFormed(s[k..])
    decreases |s|
  {
    var n := CharLen(s);
    assert forall i | 1 <= i < n :: Tail(s[i]);
    assert s[0] <= 0x7F ==> n == 1;
    assert n <= k;
    CharLenLocal(s, s[..k]);
    if n < k {
      CutAfterAscii(s[n..], k - n);
      assert s[n..][..k - n] == s[..k][n..];
      assert s[n..][k - n..] == s[k..];
    } else {
      assert s[..k][n..] == [];
    }
  }
}
