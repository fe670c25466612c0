/** Model-facing tool names: sanitizing, truncating, claiming a free name, and remembering it. */
module ToolNames {
  import opened Basics

  type Name = seq<byte>

  const MAX_NAME: nat := 64
  const MAX_INT: nat := 0x7FFF_FFFF_FFFF_FFFF  // no Go map holds more entries than an int counts
  const UNDERSCORE: byte := 0x5F

  // Names as strings.

  function Digits(n: nat): Name {
    if n < 10 then [(0x30 + n) as byte] else Digits(n / 10) + [(0x30 + n % 10) as byte]
  }

  /** The bytes truncateToolName strips from a cut edge: _ - . */
  predicate Trimmable(b: byte) {
    b == UNDERSCORE || b == 0x2D || b == 0x2E
  }

  function TrimLeft(s: Name): (t: Name)
    ensures |t| <= |s|
  {
    if s != [] && Trimmable(s[0]) then TrimLeft(s[1..]) else s
  }

  function Truncate(s: Name): (t: Name)
    ensures |t| <= MAX_NAME && |t| <= |s|
  {
    if |s| <= MAX_NAME then s else TrimLeft(s[|s| - MAX_NAME..])
  }

  /** A name that fits is left alone; of a longer one the last 64 bytes are kept, less the trimmable bytes
      they start with. */
  lemma TruncateExactly(s: Name)
    ensures |s| <= MAX_NAME ==> Truncate(s) == s
    ensures |s| > MAX_NAME ==>
              var t := Truncate(s);
              && s[|s| - |t|..] == t
              && (t != [] ==> !Trimmable(t[0]))
              && forall i | |s| - MAX_NAME <= i < |s| - |t| :: Trimmable(s[i])
  {
    if |s| > MAX_NAME {
      var cut := s[|s| - MAX_NAME..];
      TrimLeftSuffix(cut);
      forall i | |s| - MAX_NAME <= i < |s| - |TrimLeft(cut)| ensures Trimmable(s[i]) {
        assert s[i] == cut[i - (|s| - MAX_NAME)];
      }
    }
  }

  /** The n-th alternative to a taken name. */
  function Candidate(want: Name, n: nat): Name {
    Truncate(want + [UNDERSCORE] + Digits(n))
  }

  predicate Accepted(r: rune) {
    || r == 0x5F || r == 0x2D || r == 0x2E
    || 0x30 <= r <= 0x39 || 0x61 <= r <= 0x7A || 0x41 <= r <= 0x5A
  }

  function Accept(r: rune): byte {
    if Accepted(r) then r as byte else UNDERSCORE
  }

  /** Every rune made acceptable, runs of underscores collapsed. */
  function Collapsed(s: seq<rune>): Name {
    if s == [] then
      []
    else
      var front, last := Collapsed(s[..|s| - 1]), Accept(s[|s| - 1]);
      if last == UNDERSCORE && front != [] && front[|front| - 1] == UNDERSCORE then front else front + [last]
  }

  function TrimUnderscoresLeft(s: Name): Name {
    if s != [] && s[0] == UNDERSCORE then TrimUnderscoresLeft(s[1..]) else s
  }

  function TrimUnderscoresRight(s: Name): Name {
    if s != [] && s[|s| - 1] == UNDERSCORE then TrimUnderscoresRight(s[..|s| - 1]) else s
  }

  /** strings.Trim(s, "_") */
  function TrimUnderscores(s: Name): Name {
    TrimUnderscoresRight(TrimUnderscoresLeft(s))
  }

  function Sanitized(s: seq<rune>): Name {
    TrimUnderscores(Collapsed(s))
  }

  function Prefixed(toolset: seq<rune>, name: Name): Name {
    var prefix := if Sanitized(toolset) == [] then [0x6D, 0x63, 0x70] else Sanitized(toolset);  // "mcp"
    Truncate(prefix + [UNDERSCORE] + name)
  }

  method Sanitize(s: seq<rune>) returns (t: Name)
    ensures t == Sanitized(s)
  {
    var b: Name := [];
    var prevUnderscore := false;
    var i := 0;
    assert s[..0] == [];
    while i < |s|
      invariant 0 <= i <= |s|
      invariant b == Collapsed(s[..i])
      invariant prevUnderscore == (b != [] && b[|b| - 1] == UNDERSCORE)
    {
      assert s[..i + 1][..i] == s[..i];
      var r := if Accepted(s[i]) then s[i] else 0x5F;
      if r == 0x5F {
        if !prevUnderscore {
          b := b + [UNDERSCORE];
        }
        prevUnderscore := true;
      } else {
        prevUnderscore := false;
        b := b + [r as byte];
      }
      i := i + 1;
    }
    assert s[..i] == s;
    t := TrimUnderscores(b);
  }

  // Different numbers give different candidates.

  predicate IsDigit(b: byte) {
    0x30 <= b <= 0x39
  }

  predicate AllDigits(s: Name) {
    forall i | 0 <= i < |s| :: IsDigit(s[i])
  }

  function Value(s: Name): int {
    if s == [] then 0 else 10 * Value(s[..|s| - 1]) + (s[|s| - 1] as int - 0x30)
  }

  lemma {:induction false} DigitsValue(n: nat)
    ensures Value(Digits(n)) == n && AllDigits(Digits(n)) && Digits(n) != []
  {
    if n < 10 {
      assert Digits(n)[..0] == [];
    } else {
      DigitsValue(n / 10);
      assert Digits(n)[..|Digits(n)| - 1] == Digits(n / 10);
    }
  }

  function Pow10(k: nat): nat {
    if k == 0 then 1 else 10 * Pow10(k - 1)
  }

  lemma {:induction false} DigitsLength(n: nat, k: nat)
    requires 1 <= k && n < Pow10(k)
    ensures |Digits(n)| <= k
  {
    if n >= 10 {
      assert k > 1;
      DigitsLength(n / 10, k - 1);
    }
  }

  lemma NineteenDigits()
    ensures Pow10(19) > MAX_INT
  {
    assert Pow10(2) == 100;
    assert Pow10(4) == 10_000;
    assert Pow10(6) == 1_000_000;
    assert Pow10(8) == 100_000_000;
    assert Pow10(10) == 10_000_000_000;
    assert Pow10(12) == 1_000_000_000_000;
    assert Pow10(14) == 100_000_000_000_000;
    assert Pow10(16) == 10_000_000_000_000_000;
    assert Pow10(18) == 1_000_000_000_000_000_000;
  }

  /** The digits a name ends in. */
  function DigitSuffix(s: Name): Name {
    if s != [] && IsDigit(s[|s| - 1]) then DigitSuffix(s[..|s| - 1]) + [s[|s| - 1]] else []
  }

  lemma {:induction false} DigitSuffixOf(x: Name, d: Name)
    requires AllDigits(d) && (x == [] || !IsDigit(x[|x| - 1]))
    ensures DigitSuffix(x + d) == d
  {
    if d == [] {
      assert x + d == x;
    } else {
      assert (x + d)[..|x + d| - 1] == x + d[..|d| - 1];
      DigitSuffixOf(x, d[..|d| - 1]);
    }
  }

  /** Trimming leaves the longest end of s that does not start with a trimmable byte. */
  lemma {:induction false} TrimLeftSuffix(s: Name)
    ensures var t := TrimLeft(s);
            && s[|s| - |t|..] == t
            && (t != [] ==> !Trimmable(t[0]))
            && forall i | 0 <= i < |s| - |t| :: Trimmable(s[i])
  {
    if s != [] && Trimmable(s[0]) {
      TrimLeftSuffix(s[1..]);
      forall i | 0 < i < |s| - |TrimLeft(s)| ensures Trimmable(s[i]) {
        assert s[i] == s[1..][i - 1];
      }
    }
  }

  /** Trimming stops at the first byte that stays, if the front has one. */
  lemma {:induction false} TrimLeftConcat(p: Name, d: Name)
    ensures TrimLeft(p + d) == if TrimLeft(p) == [] then TrimLeft(d) else TrimLeft(p) + d
  {
    if p == [] {
      assert p + d == d;
    } else {
      assert (p + d)[1..] == p[1..] + d;
      if Trimmable(p[0]) {
        TrimLeftConcat(p[1..], d);
      }
    }
  }

  lemma TrimLeftKeepsDigits(x: Name, d: Name)
    requires x != [] && !IsDigit(x[|x| - 1]) && AllDigits(d) && d != []
    ensures DigitSuffix(TrimLeft(x + d)) == d
  {
    var t := TrimLeft(x);
    TrimLeftConcat(x, d);
    if t == [] {
      assert TrimLeft(x + d) == d == [] + d;
      DigitSuffixOf([], d);
    } else {
      TrimLeftSuffix(x);
      DigitSuffixOf(t, d);
    }
  }

  lemma DropConcat<T>(a: seq<T>, b: seq<T>, k: nat)
    requires k <= |a|
    ensures (a + b)[k..] == a[k..] + b
  {
  }

  /** Whatever truncation cuts away in front, a number that fits stays whole. */
  lemma CutKeepsDigits(stem: Name, d: Name)
    requires stem != [] && !IsDigit(stem[|stem| - 1]) && AllDigits(d) && 0 < |d| < MAX_NAME
    ensures DigitSuffix(Truncate(stem + d)) == d
  {
    var s := stem + d;
    if |s| <= MAX_NAME {
      assert Truncate(s) == s;
      DigitSuffixOf(stem, d);
    } else {
      var cut := |s| - MAX_NAME;
      var x := stem[cut..];
      DropConcat(stem, d, cut);
      assert Truncate(s) == TrimLeft(x + d);
      TrimLeftKeepsDigits(x, d);
    }
  }

  lemma FewDigits(n: nat)
    requires n <= MAX_INT
    ensures |Digits(n)| <= 19
  {
    NineteenDigits();
    DigitsLength(n, 19);
  }

  /** Even when truncation eats the whole of want, a candidate still ends in its number. */
  lemma CandidateEnds(want: Name, n: nat)
    requires n <= MAX_INT
    ensures DigitSuffix(Candidate(want, n)) == Digits(n)
  {
    DigitsValue(n);
    FewDigits(n);
    CutKeepsDigits(want + [UNDERSCORE], Digits(n));
  }

  lemma CandidatesDiffer(want: Name, m: nat, n: nat)
    requires m <= MAX_INT && n <= MAX_INT && m != n
    ensures Candidate(want, m) != Candidate(want, n)
  {
    CandidateEnds(want, m);
    CandidateEnds(want, n);
    DigitsValue(m);
    DigitsValue(n);
  }

  // Some candidate is free.

  function Tried(want: Name, n: nat): set<Name> {
    if n <= 2 then {} else Tried(want, n - 1) + {Candidate(want, n - 1)}
  }

  lemma {:induction false} TriedAre(want: Name, n: nat, x: Name) returns (k: nat)
    requires x in Tried(want, n)
    ensures 2 <= k < n && x == Candidate(want, k)
  {
    if x == Candidate(want, n - 1) {
      k := n - 1;
    } else {
      k := TriedAre(want, n - 1, x);
    }
  }

  lemma {:induction false} TriedSize(want: Name, n: nat)
    requires 2 <= n <= MAX_INT
    ensures |Tried(want, n)| == n - 2
  {
    if n > 2 {
      TriedSize(want, n - 1);
      if Candidate(want, n - 1) in Tried(want, n - 1) {
        var k := TriedAre(want, n - 1, Candidate(want, n - 1));
        CandidatesDiffer(want, k, n - 1);
      }
    }
  }

  /** With the candidates below n all taken, n is at most |taken| + 2: the search cannot run on. */
  lemma SearchBound(taken: set<Name>, want: Name, n: nat)
    requires 2 <= n <= MAX_INT && Tried(want, n) <= taken
    ensures n <= |taken| + 2
  {
    TriedSize(want, n);
    SubsetSize(Tried(want, n), taken);
  }

  predicate Roomy(taken: set<Name>) {
    |taken| + 3 <= MAX_INT
  }

  /** The candidates below n are all taken. */
  ghost predicate Searched(taken: set<Name>, want: Name, n: nat) {
    2 <= n <= MAX_INT && Tried(want, n) <= taken
  }

  lemma SearchOn(taken: set<Name>, want: Name, n: nat)
    requires Roomy(taken) && Searched(taken, want, n)
    ensures n <= |taken| + 2
    ensures Candidate(want, n) in taken ==> Searched(taken, want, n + 1)
  {
    SearchBound(taken, want, n);
  }

  /** The number of the first free candidate from n on. */
  function FirstFree(taken: set<Name>, want: Name, n: nat): (k: nat)
    requires Roomy(taken) && Searched(taken, want, n)
    ensures n <= k <= |taken| + 2
    ensures Candidate(want, k) !in taken
    ensures forall m: nat | n <= m < k :: Candidate(want, m) in taken
    decreases |taken| + 3 - n
  {
    SearchOn(taken, want, n);
    if Candidate(want, n) in taken then FirstFree(taken, want, n + 1) else n
  }

  /** The name claim hands out. */
  function Claimed(taken: set<Name>, want: Name): (name: Name)
    requires Roomy(taken)
    ensures name !in taken
    ensures name == want <==> want !in taken
    ensures name == want || |name| <= MAX_NAME
  {
    if want in taken then Candidate(want, FirstFree(taken, want, 2)) else want
  }

  class NameClaims {
    var taken: set<Name>

    constructor ()
      ensures taken == {}
    {
      taken := {};
    }

    method Claim(want: Name) returns (name: Name)
      requires Roomy(taken)
      modifies this
      ensures name == Claimed(old(taken), want) && taken == old(taken) + {name}
    {
      if want !in taken {
        taken := taken + {want};
        return want;
      }
      var n := 2;
      while true
        invariant taken == old(taken) && Searched(taken, want, n)
        invariant FirstFree(taken, want, 2) == FirstFree(taken, want, n)
        decreases |taken| + 3 - n
      {
        SearchOn(taken, want, n);
        var alt := Candidate(want, n);
        if alt !in taken {
          taken := taken + {alt};
          return alt;
        }
        n := n + 1;
      }
    }

    predicate IsTaken(name: Name)
      reads this
    {
      name in taken
    }
  }

  /** The name nameFor gives an original that has none yet. */
  function NewName(taken: set<Name>, toolset: seq<rune>, orig: Name): (name: Name)
    requires Roomy(taken)
    ensures name !in taken
    ensures name == orig <==> orig !in taken
    ensures name == orig || |name| <= MAX_NAME
  {
    Claimed(taken, if orig in taken then Prefixed(toolset, orig) else orig)
  }

  class DedupedToolset {
    const toolset: seq<rune>
    const claims: NameClaims
    var names: map<Name, Name>

    constructor (toolset: seq<rune>, claims: NameClaims)
      ensures this.toolset == toolset && this.claims == claims && names == map[]
    {
      this.toolset, this.claims, names := toolset, claims, map[];
    }

    method NameFor(orig: Name) returns (final: Name)
      requires Roomy(claims.taken)
      modifies this, claims
      ensures orig in old(names) ==>
                final == old(names)[orig] && names == old(names) && claims.taken == old(claims.taken)
      ensures orig !in old(names) ==>
                && final == NewName(old(claims.taken), toolset, orig)
                && names == old(names)[orig := final]
                && claims.taken == old(claims.taken) + {final}
    {
      if orig in names {
        return names[orig];
      }
      if !claims.IsTaken(orig) {
        final := claims.Claim(orig);
        names := names[orig := final];
        return;
      }
      final := claims.Claim(Prefixed(toolset, orig));
      names := names[orig := final];
    }

    /** Tools: the model-facing names, in order, of the inner tools that are not nil. Names given
        earlier are kept, every name listed is the one assigned, and new names were free. */
    method Tools(inner: seq<Option<Name>>) returns (out: seq<Name>)
      requires |claims.taken| + |inner| + 3 <= MAX_INT
      modifies this, claims
      ensures out == Renamed(inner, names)
      ensures Grown(old(names), old(claims.taken), names, claims.taken)
    {
      out := [];
      var i := 0;
      while i < |inner|
        invariant 0 <= i <= |inner|
        invariant |claims.taken| <= old(|claims.taken|) + i
        invariant out == Renamed(inner[..i], names)
        invariant forall j | 0 <= j < i && inner[j].Some? :: inner[j].value in names
        invariant Grown(old(names), old(claims.taken), names, claims.taken)
      {
        ghost var before, taken := names, claims.taken;
        if inner[i].Some? {
          var final := NameFor(inner[i].value);
          out := out + [final];
          GrownStep(old(names), old(claims.taken), before, taken, toolset, inner[i].value);
        }
        RenamedStep(inner, i, before, names);
        i := i + 1;
      }
      assert inner[..i] == inner;
    }
  }

  /** Names once given are kept, and names given since were free before and are taken now. */
  ghost predicate Grown(names: map<Name, Name>, taken: set<Name>, names': map<Name, Name>, taken': set<Name>) {
    && (forall o | o in names :: o in names' && names'[o] == names[o])
    && (forall o | o in names' && o !in names :: names'[o] !in taken && names'[o] in taken')
    && taken <= taken'
  }

  lemma GrownStep(names0: map<Name, Name>, taken0: set<Name>, names: map<Name, Name>, taken: set<Name>,
                  toolset: seq<rune>, orig: Name)
    requires Grown(names0, taken0, names, taken) && Roomy(taken)
    ensures var final := NewName(taken, toolset, orig);
            && (orig !in names ==> Grown(names0, taken0, names[orig := final], taken + {final}))
            && |taken + {final}| <= |taken| + 1
  {
  }

  function Renamed(inner: seq<Option<Name>>, names: map<Name, Name>): seq<Name> {
    if inner == [] then
      []
    else
      var last := inner[|inner| - 1];
      Renamed(inner[..|inner| - 1], names)
      + if last.None? then [] else [if last.value in names then names[last.value] else last.value]
  }

  lemma {:induction false} RenamedMore(inner: seq<Option<Name>>, a: map<Name, Name>, b: map<Name, Name>)
    requires forall j | 0 <= j < |inner| && inner[j].Some? :: inner[j].value in a
    requires forall o | o in a :: o in b && b[o] == a[o]
    ensures Renamed(inner, a) == Renamed(inner, b)
  {
    if inner != [] {
      RenamedMore(inner[..|inner| - 1], a, b);
    }
  }

  lemma RenamedStep(inner: seq<Option<Name>>, i: nat, a: map<Name, Name>, b: map<Name, Name>)
    requires i < |inner|
    requires forall j | 0 <= j < i && inner[j].Some? :: inner[j].value in a
    requires forall o | o in a :: o in b && b[o] == a[o]
    requires inner[i].Some? ==> inner[i].value in b
    ensures Renamed(inner[..i + 1], b) ==
            Renamed(inner[..i], a) + if inner[i].None? then [] else [b[inner[i].value]]
  {
    RenamedMore(inner[..i], a, b);
    assert inner[..i + 1][..i] == inner[..i];
  }

  /** dedupeToolsets: every toolset wrapped, in order, nil ones left out, all sharing one set of claims
      that starts from the built-in names. */
  method DedupeToolsets(tools: seq<Option<Name>>, toolsets: seq<Option<seq<rune>>>) returns (out: seq<DedupedToolset>)
    ensures |out| == |Present(toolsets)|
    ensures forall i | 0 <= i < |out| ::
              && fresh(out[i]) && out[i].toolset == Present(toolsets)[i] && out[i].names == map[]
              && out[i].claims == out[0].claims && out[i].claims.taken == Builtins(tools)
  {
    out := [];
    if |toolsets| == 0 {
      return;
    }
    var claims := new NameClaims();
    var i := 0;
    while i < |tools|
      invariant 0 <= i <= |tools| && claims.taken == Builtins(tools[..i])
    {
      assert tools[..i + 1][..i] == tools[..i];
      if tools[i].Some? {
        claims.taken := claims.taken + {tools[i].value};
      }
      i := i + 1;
    }
    assert tools[..i] == tools;
    i := 0;
    while i < |toolsets|
      invariant 0 <= i <= |toolsets| && |out| == |Present(toolsets[..i])| && fresh(claims)
      invariant claims.taken == Builtins(tools)
      invariant forall k | 0 <= k < |out| ::
                  && fresh(out[k]) && out[k].toolset == Present(toolsets[..i])[k]
                  && out[k].names == map[] && out[k].claims == claims
    {
      assert toolsets[..i + 1][..i] == toolsets[..i];
      if toolsets[i].Some? {
        var wrapped := new DedupedToolset(toolsets[i].value, claims);
        out := out + [wrapped];
      }
      i := i + 1;
    }
    assert toolsets[..i] == toolsets;
  }

  function Builtins(tools: seq<Option<Name>>): set<Name> {
    if tools == [] then
      {}
    else
      Builtins(tools[..|tools| - 1]) + if tools[|tools| - 1].Some? then {tools[|tools| - 1].value} else {}
  }

  function Present<T>(xs: seq<Option<T>>): seq<T> {
    if xs == [] then [] else Present(xs[..|xs| - 1]) + if xs[|xs| - 1].Some? then [xs[|xs| - 1].value] else []
  }
}
