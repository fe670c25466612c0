/** What a scan reports and what stripping leaves, told by code points and their neighbours. */
module HiddenCharsTheorems {
  import opened Basics
  import opened HiddenChars

  // The characters meant.

  /** The code points of each kind, and how severe a kind is. */
  predicate Listed(r: rune, severity: Severity, kind: Kind) {
    match kind
    case TagCharacter => severity == Critical && 0xE0001 <= r <= 0xE007F
    case BidiOverride => severity == Critical && (0x202A <= r <= 0x202E || 0x2066 <= r <= 0x2069)
    case VariationSelector => severity == Critical && 0xE0100 <= r <= 0xE01EF
    case ZeroWidth => severity == Warning && r in {0x200B, 0x200C, 0x200D, 0xFEFF}
    case BidiMark => severity == Warning && r in {0x200E, 0x200F}
    case InvisibleOperator => severity == Warning && 0x2061 <= r <= 0x2064
    case UnusualSpace => severity == Info && (r in {0xA0, 0x202F, 0x205F, 0x3000} || 0x2000 <= r <= 0x200A)
    case EmojiJoiner => false
    case LeadingMark => false
    case NotText => false
  }

  lemma TableExactly(r: rune, e: Entry)
    ensures Table(r) == Some(e) <==> Listed(r, e.severity, e.kind)
  {
  }

  predicate EmojiPoint(r: rune) {
    || 0x1F300 <= r <= 0x1F64F || 0x1F680 <= r <= 0x1F6FF || 0x1F1E0 <= r <= 0x1F1FF
    || 0x2600 <= r <= 0x27BF || 0x1F900 <= r <= 0x1F9FF || 0x1FA00 <= r <= 0x1FAFF
  }

  lemma EmojiExactly(r: rune)
    ensures Emoji(r) <==> EmojiPoint(r)
  {
    if EmojiPoint(r) {
      var i := if r <= 0x26FF then 4 else if r <= 0x27BF then 5 else if r <= 0x1F1FF then 3 else if r <= 0x1F5FF then 1
               else if r <= 0x1F64F then 0 else if r <= 0x1F6FF then 2 else if r <= 0x1F9FF then 6
               else if r <= 0x1FA6F then 7 else 8;
      assert EMOJI[i].lo <= r <= EMOJI[i].hi;
    }
  }

  // What becomes of the rune at i.

  /** The runes on both sides are emoji. */
  predicate Joins(s: Text, i: nat) {
    0 < i && i + 1 < |s| && EmojiPoint(s[i - 1]) && EmojiPoint(s[i + 1])
  }

  predicate Judged(s: Text, i: nat, severity: Severity, kind: Kind)
    requires i < |s|
  {
    if s[i] == 0x200D && Joins(s, i) then severity == Info && kind == EmojiJoiner
    else if s[i] == 0xFEFF && i == 0 then severity == Info && kind == LeadingMark
    else Listed(s[i], severity, kind)
  }

  lemma BetweenExactly(s: Text, i: nat)
    requires i < |s|
    ensures BetweenEmoji(s, i) <==> Joins(s, i)
  {
    if 0 < i < |s| - 1 {
      EmojiExactly(s[i - 1]);
      EmojiExactly(s[i + 1]);
    }
  }

  lemma ReportedExactly(s: Text, i: nat, e: Entry)
    requires i < |s|
    ensures Reported(s, i) == Some(e) <==> Judged(s, i, e.severity, e.kind)
  {
    BetweenExactly(s, i);
    TableExactly(s[i], e);
  }

  /** A rune survives unless it is of a dangerous kind and has no excuse. */
  predicate Survives(s: Text, i: nat)
    requires i < |s|
  {
    var r := s[i];
    if r == 0x200D then Joins(s, i)
    else if r == 0xFEFF then i == 0
    else
      !(|| 0xE0001 <= r <= 0xE007F || 0xE0100 <= r <= 0xE01EF
        || 0x202A <= r <= 0x202E || 0x2066 <= r <= 0x2069
        || 0x200B <= r <= 0x200F || 0x2061 <= r <= 0x2064)
  }

  lemma KeptExactly(s: Text, i: nat)
    requires i < |s|
    ensures Kept(s, i) <==> Survives(s, i)
  {
    BetweenExactly(s, i);
  }

  // Whole texts.

  /** Positions in s, in order. */
  predicate Positions(s: Text, at: seq<nat>) {
    && (forall k | 0 <= k < |at| :: at[k] < |s|)
    && forall j, k | 0 <= j < k < |at| :: at[j] < at[k]
  }

  lemma PositionsGrow(s: Text, at: seq<nat>, i: nat)
    requires Positions(s, at) && i < |s| && forall j | j in at :: j < i
    ensures Positions(s, at + [i]) && forall j :: j in at + [i] <==> j in at || j == i
  {
    assert forall k | 0 <= k < |at| :: at[k] in at;
  }

  ghost predicate KeptAre(s: Text, n: nat, at: seq<nat>)
    requires n <= |s|
  {
    && Positions(s, at) && (forall i: nat | i < |s| :: i in at <==> i < n && Survives(s, i))
    && |Stripped(s, n)| == |at|
    && forall k | 0 <= k < |at| :: Stripped(s, n)[k] == s[at[k]]
  }

  lemma {:induction false} KeptPositions(s: Text, n: nat) returns (at: seq<nat>)
    requires n <= |s|
    ensures KeptAre(s, n, at)
  {
    if n == 0 {
      at := [];
    } else {
      at := KeptPositions(s, n - 1);
      KeptExactly(s, n - 1);
      if Survives(s, n - 1) {
        PositionsGrow(s, at, n - 1);
        at := at + [n - 1];
      }
    }
  }

  /** Stripping leaves exactly the runes that survive, in their order. */
  lemma StripExactly(s: Text)
    ensures exists at: seq<nat> ::
              && Positions(s, at) && (forall i: nat | i < |s| :: i in at <==> Survives(s, i))
              && |Strip(s)| == |at| && forall k | 0 <= k < |at| :: Strip(s)[k] == s[at[k]]
  {
    var at := KeptPositions(s, |s|);
    assert KeptAre(s, |s|, at);
  }

  lemma {:induction false} CameFrom(s: Text, n: nat, p: nat) returns (i: nat)
    requires n <= |s| && p < |Stripped(s, n)|
    ensures i < n && Kept(s, i) && |Stripped(s, i)| == p
  {
    if p < |Stripped(s, n - 1)| {
      i := CameFrom(s, n - 1, p);
    } else {
      i := n - 1;
    }
  }

  /** A joiner in a stripped text stands between two emoji. */
  lemma JoinersStand(s: Text, p: nat)
    requires p < |Strip(s)| && Strip(s)[p] == 0x200D
    ensures 0 < p < |Strip(s)| - 1 && EmojiPoint(Strip(s)[p - 1]) && EmojiPoint(Strip(s)[p + 1])
  {
    var i := CameFrom(s, |s|, p);
    KeptAt(s, i);
    KeptExactly(s, i);
    BetweenExactly(s, i);
    EmojiKept(s, i - 1);
    EmojiKept(s, i + 1);
    KeptAt(s, i - 1);
    KeptAt(s, i + 1);
  }

  /** The rune at i stands at p in t, between the same neighbours. */
  predicate StandsAt(s: Text, i: nat, t: Text, p: nat) {
    && 0 < i < |s| - 1 && 0 < p < |t| - 1
    && t[p - 1] == s[i - 1] && t[p] == s[i] && t[p + 1] == s[i + 1]
  }

  /** And a joiner between two emoji stays between them. */
  lemma JoinersSurvive(s: Text, i: nat)
    requires i < |s| && s[i] == 0x200D && Joins(s, i)
    ensures exists p: nat :: StandsAt(s, i, Strip(s), p)
  {
    KeptExactly(s, i);
    BetweenExactly(s, i);
    EmojiKept(s, i - 1);
    EmojiKept(s, i + 1);
    KeptAt(s, i - 1);
    KeptAt(s, i);
    KeptAt(s, i + 1);
    assert StandsAt(s, i, Strip(s), |Stripped(s, i)|);
  }

  /** A byte order mark stands at the very start of a stripped text or nowhere, and one at the start of a text
      stays there. */
  lemma MarkOnlyFirst(s: Text)
    ensures forall p | 0 <= p < |Strip(s)| && Strip(s)[p] == 0xFEFF :: p == 0
    ensures s != [] && s[0] == 0xFEFF ==> Strip(s) != [] && Strip(s)[0] == 0xFEFF
  {
    forall p: nat | p < |Strip(s)| && Strip(s)[p] == 0xFEFF ensures p == 0 {
      var i := CameFrom(s, |s|, p);
      KeptAt(s, i);
    }
    if s != [] && s[0] == 0xFEFF {
      KeptAt(s, 0);
    }
  }

  // Where the findings are.

  /** i is in column col: its line starts col - 1 runes before it. */
  predicate Column(s: Text, i: nat, col: nat)
    requires i < |s|
  {
    && 1 <= col <= i + 1
    && (col == i + 1 || s[i - col] == 0x0A)
    && forall j | i + 1 - col <= j < i :: s[j] != 0x0A
  }

  /** f reports the rune at i, by line and column, and as what it is. */
  predicate ReportsRune(file: string, s: Text, i: nat, f: Finding)
    requires i < |s|
  {
    && f.file == file && f.code == Some(s[i])
    && f.line == multiset(s[..i])[0x0A] + 1 && Column(s, i, f.col)
    && Judged(s, i, f.severity, f.kind)
  }

  predicate Hidden(s: Text, i: nat)
    requires i < |s|
  {
    exists severity, kind :: Judged(s, i, severity, kind)
  }

  lemma {:induction false} NewlinesCounted(s: Text, i: nat)
    requires i <= |s|
    ensures Newlines(s, i) == multiset(s[..i])[0x0A]
  {
    if i > 0 {
      NewlinesCounted(s, i - 1);
      assert s[..i] == s[..i - 1] + [s[i - 1]];
    }
  }

  lemma HiddenExactly(s: Text, i: nat)
    requires i < |s|
    ensures Reported(s, i).Some? <==> Hidden(s, i)
    ensures Reported(s, i).Some? ==> Judged(s, i, Reported(s, i).value.severity, Reported(s, i).value.kind)
  {
    if Reported(s, i).Some? {
      ReportedExactly(s, i, Reported(s, i).value);
    }
    if severity, kind :| Judged(s, i, severity, kind) {
      ReportedExactly(s, i, Entry(severity, kind));
    }
  }

  ghost predicate FoundAre(file: string, s: Text, n: nat, at: seq<nat>)
    requires n <= |s|
  {
    && Positions(s, at) && (forall i: nat | i < |s| :: i in at <==> i < n && Hidden(s, i))
    && |Findings(file, s, n)| == |at|
    && forall k | 0 <= k < |at| :: ReportsRune(file, s, at[k], Findings(file, s, n)[k])
  }

  lemma LastReports(file: string, s: Text, i: nat)
    requires i < |s| && Hidden(s, i)
    ensures var f := Findings(file, s, i + 1);
            |f| == |Findings(file, s, i)| + 1 && f[..|f| - 1] == Findings(file, s, i)
            && ReportsRune(file, s, i, f[|f| - 1])
  {
    HiddenExactly(s, i);
    NewlinesCounted(s, i);
  }

  lemma {:induction false} FoundPositions(file: string, s: Text, n: nat) returns (at: seq<nat>)
    requires n <= |s|
    ensures FoundAre(file, s, n, at)
  {
    if n == 0 {
      at := [];
    } else {
      at := FoundPositions(file, s, n - 1);
      HiddenExactly(s, n - 1);
      if Hidden(s, n - 1) {
        PositionsGrow(s, at, n - 1);
        LastReports(file, s, n - 1);
        at := at + [n - 1];
      }
    }
  }

  /** A scan has one finding for each hidden character, in the order of the text, with its place and its
      verdict. */
  lemma ScanExactly(file: string, s: Text)
    ensures exists at: seq<nat> ::
              && Positions(s, at) && (forall i: nat | i < |s| :: i in at <==> Hidden(s, i))
              && |Scan(file, s)| == |at|
              && forall k | 0 <= k < |at| :: ReportsRune(file, s, at[k], Scan(file, s)[k])
  {
    var at := FoundPositions(file, s, |s|);
    assert FoundAre(file, s, |s|, at);
  }

  function Severities(findings: seq<Finding>): seq<Severity> {
    seq(|findings|, i requires 0 <= i < |findings| => findings[i].severity)
  }

  /** A count is how often the severity occurs. */
  lemma {:induction false} CountExactly(findings: seq<Finding>, v: Severity)
    ensures Count(findings, v) == multiset(Severities(findings))[v]
  {
    if findings != [] {
      var front, last := findings[..|findings| - 1], findings[|findings| - 1];
      CountExactly(front, v);
      assert Severities(findings) == Severities(front) + [last.severity];
    }
  }

  function Rank(v: Severity): nat {
    match v
    case Info => 0
    case Warning => 1
    case Critical => 2
  }

  lemma HigherExactly(a: Severity, b: Severity)
    ensures Higher(a, b) <==> Rank(a) > Rank(b)
  {
  }

  /** A byte that decodes to nothing is one replacement character in the stripped file. */
  lemma BadByteReplaced(u: seq<Unit>, i: nat)
    requires i < |u| && u[i].Bad?
    ensures var p := |Stripped(Decoded(u), i)|; p < |StripRaw(u)| && StripRaw(u)[p] == Good(0xFFFD)
  {
    KeptExactly(Decoded(u), i);
    KeptAt(Decoded(u), i);
  }
}
