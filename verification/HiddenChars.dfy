/** Finding hidden characters in a text, and removing the dangerous ones. */
module HiddenChars {
  import opened Basics

  type Text = seq<rune>

  datatype Severity = Info | Warning | Critical

  predicate Higher(a: Severity, b: Severity) {
    (a == Critical && b != Critical) || (a == Warning && b == Info)
  }

  datatype Kind =
    | TagCharacter | BidiOverride | VariationSelector
    | ZeroWidth | BidiMark | InvisibleOperator
    | UnusualSpace | EmojiJoiner | LeadingMark | NotText

  datatype Entry = Entry(severity: Severity, kind: Kind)

  datatype Finding =
    Finding(file: string, line: nat, col: nat, code: Option<rune>, severity: Severity, kind: Kind)

  const JOINER: rune := 0x200D
  const BYTE_ORDER_MARK: rune := 0xFEFF
  const NEWLINE: rune := 0x0A

  /** The character table. */
  function Table(r: rune): Option<Entry> {
    if 0xE0001 <= r <= 0xE007F then Some(Entry(Critical, TagCharacter))
    else if 0x202A <= r <= 0x202E || 0x2066 <= r <= 0x2069 then Some(Entry(Critical, BidiOverride))
    else if 0xE0100 <= r <= 0xE01EF then Some(Entry(Critical, VariationSelector))
    else if 0x200B <= r <= 0x200D || r == 0xFEFF then Some(Entry(Warning, ZeroWidth))
    else if r == 0x200E || r == 0x200F then Some(Entry(Warning, BidiMark))
    else if 0x2061 <= r <= 0x2064 then Some(Entry(Warning, InvisibleOperator))
    else if r == 0x00A0 || 0x2000 <= r <= 0x200A || r == 0x202F || r == 0x205F || r == 0x3000 then
      Some(Entry(Info, UnusualSpace))
    else None
  }

  datatype Range = Range(lo: rune, hi: rune)

  const EMOJI: seq<Range> := [
    Range(0x1F600, 0x1F64F), Range(0x1F300, 0x1F5FF), Range(0x1F680, 0x1F6FF), Range(0x1F1E0, 0x1F1FF),
    Range(0x2600, 0x26FF), Range(0x2700, 0x27BF), Range(0x1F900, 0x1F9FF), Range(0x1FA00, 0x1FA6F),
    Range(0x1FA70, 0x1FAFF)]

  predicate Emoji(r: rune) {
    exists i :: 0 <= i < |EMOJI| && EMOJI[i].lo <= r <= EMOJI[i].hi
  }

  method IsEmoji(r: rune) returns (emoji: bool)
    ensures emoji == Emoji(r)
  {
    var i := 0;
    while i < |EMOJI|
      invariant 0 <= i <= |EMOJI|
      invariant forall j | 0 <= j < i :: !(EMOJI[j].lo <= r <= EMOJI[j].hi)
    {
      if EMOJI[i].lo <= r <= EMOJI[i].hi {
        return true;
      }
      i := i + 1;
    }
    return false;
  }

  /** No emoji is a hidden character, so stripping never removes a joiner's neighbours. */
  lemma EmojiNotHidden(r: rune)
    requires Emoji(r)
    ensures Table(r).None? && r != NEWLINE
  {
  }

  // What a scan reports.

  predicate BetweenEmoji(s: Text, i: nat)
    requires i < |s|
  {
    0 < i < |s| - 1 && Emoji(s[i - 1]) && Emoji(s[i + 1])
  }

  /** What the scan makes of the rune at i. */
  function Reported(s: Text, i: nat): Option<Entry>
    requires i < |s|
  {
    if s[i] == NEWLINE || Table(s[i]).None? then None
    else if s[i] == JOINER && BetweenEmoji(s, i) then Some(Entry(Info, EmojiJoiner))
    else if s[i] == BYTE_ORDER_MARK && i == 0 then Some(Entry(Info, LeadingMark))
    else Table(s[i])
  }

  /** The number of newlines before i, and the start of i's line. */
  function Newlines(s: Text, i: nat): nat
    requires i <= |s|
  {
    if i == 0 then 0 else Newlines(s, i - 1) + if s[i - 1] == NEWLINE then 1 else 0
  }

  function LineStart(s: Text, i: nat): (start: nat)
    requires i <= |s|
    ensures start <= i && (start > 0 ==> s[start - 1] == NEWLINE)
    ensures forall j | start <= j < i :: s[j] != NEWLINE
  {
    if i == 0 || s[i - 1] == NEWLINE then i else LineStart(s, i - 1)
  }

  function Findings(file: string, s: Text, n: nat): seq<Finding>
    requires n <= |s|
  {
    if n == 0 then
      []
    else
      var i, e := n - 1, Reported(s, n - 1);
      Findings(file, s, i) +
      if e.None? then []
      else [Finding(file, Newlines(s, i) + 1, i - LineStart(s, i) + 1, Some(s[i]), e.value.severity, e.value.kind)]
  }

  predicate Ascii(s: Text) {
    forall i | 0 <= i < |s| :: s[i] <= 127
  }

  lemma {:induction false} AsciiHasNone(file: string, s: Text, n: nat)
    requires Ascii(s) && n <= |s|
    ensures Findings(file, s, n) == []
  {
    if n > 0 {
      AsciiHasNone(file, s, n - 1);
    }
  }

  method IsAscii(s: Text) returns (ascii: bool)
    ensures ascii == Ascii(s)
  {
    var i := 0;
    while i < |s|
      invariant 0 <= i <= |s| && forall j | 0 <= j < i :: s[j] <= 127
    {
      if s[i] > 127 {
        return false;
      }
      i := i + 1;
    }
    return true;
  }

  /** The severity and description of a table entry where it stands. */
  method InContext(s: Text, i: nat, entry: Entry) returns (severity: Severity, kind: Kind)
    requires i < |s| && Table(s[i]) == Some(entry)
    ensures Reported(s, i) == Some(Entry(severity, kind))
  {
    EntryIsNoNewline(s[i]);
    severity, kind := entry.severity, entry.kind;
    if s[i] == JOINER {
      var prev, next := false, false;
      if i > 0 {
        prev := IsEmoji(s[i - 1]);
      }
      if i < |s| - 1 {
        next := IsEmoji(s[i + 1]);
      }
      if prev && next {
        severity, kind := Info, EmojiJoiner;
      }
    }
    if s[i] == BYTE_ORDER_MARK && i == 0 {
      severity, kind := Info, LeadingMark;
    }
  }

  lemma EntryIsNoNewline(r: rune)
    requires Table(r).Some?
    ensures r != NEWLINE
  {
  }

  method ScanText(s: Text, file: string) returns (files: seq<string>, findings: seq<Finding>)
    ensures files == [file] && findings == Findings(file, s, |s|)
  {
    files, findings := [file], [];
    var ascii := IsAscii(s);
    if ascii {
      AsciiHasNone(file, s, |s|);
      return;
    }
    var line, col: nat := 1, 1;
    var i := 0;
    while i < |s|
      invariant 0 <= i <= |s|
      invariant findings == Findings(file, s, i)
      invariant line == Newlines(s, i) + 1 && col == i - LineStart(s, i) + 1
    {
      var r := s[i];
      if r == NEWLINE {
        line, col := line + 1, 1;
        i := i + 1;
        continue;
      }
      var entry := Table(r);
      if entry.Some? {
        var severity, kind := InContext(s, i, entry.value);
        findings := findings + [Finding(file, line, col, Some(r), severity, kind)];
      }
      col := col + 1;
      i := i + 1;
    }
  }

  // What stripping keeps.

  predicate Kept(s: Text, i: nat)
    requires i < |s|
  {
    || Table(s[i]).None? || Table(s[i]).value.severity == Info
    || (s[i] == JOINER && BetweenEmoji(s, i))
    || (s[i] == BYTE_ORDER_MARK && i == 0)
  }

  /** What is left of the first n runes. */
  function Stripped(s: Text, n: nat): (t: Text)
    requires n <= |s|
    ensures |t| <= n
  {
    if n == 0 then [] else Stripped(s, n - 1) + if Kept(s, n - 1) then [s[n - 1]] else []
  }

  function Strip(s: Text): Text {
    Stripped(s, |s|)
  }

  method StripDangerous(s: Text) returns (t: Text)
    ensures t == Strip(s)
  {
    t := [];
    var i := 0;
    while i < |s|
      invariant 0 <= i <= |s| && t == Stripped(s, i)
    {
      var r := s[i];
      var entry := Table(r);
      if entry.None? || entry.value.severity == Info {
        t := t + [r];
        i := i + 1;
        continue;
      }
      if r == JOINER {
        var prev, next := false, false;
        if i > 0 {
          prev := IsEmoji(s[i - 1]);
        }
        if i < |s| - 1 {
          next := IsEmoji(s[i + 1]);
        }
        if prev && next {
          t := t + [r];
          i := i + 1;
          continue;
        }
      }
      if r == BYTE_ORDER_MARK && i == 0 {
        t := t + [r];
        i := i + 1;
        continue;
      }
      i := i + 1;
    }
  }

  // Counting

  function Count(findings: seq<Finding>, v: Severity): nat {
    if findings == [] then 0
    else Count(findings[..|findings| - 1], v) + if findings[|findings| - 1].severity == v then 1 else 0
  }

  method CountBySeverity(findings: seq<Finding>) returns (critical: nat, warning: nat, info: nat)
    ensures critical == Count(findings, Critical)
    ensures warning == Count(findings, Warning)
    ensures info == Count(findings, Info)
  {
    critical, warning, info := 0, 0, 0;
    var i := 0;
    while i < |findings|
      invariant 0 <= i <= |findings|
      invariant critical == Count(findings[..i], Critical)
      invariant warning == Count(findings[..i], Warning)
      invariant info == Count(findings[..i], Info)
    {
      assert findings[..i + 1][..i] == findings[..i];
      match findings[i].severity {
        case Critical => critical := critical + 1;
        case Warning => warning := warning + 1;
        case Info => info := info + 1;
      }
      i := i + 1;
    }
    assert findings[..i] == findings;
  }

  /** The highest severity found. */
  method Classify(findings: seq<Finding>) returns (highest: Severity)
    ensures forall i | 0 <= i < |findings| :: !Higher(findings[i].severity, highest)
    ensures highest == Info || exists i :: 0 <= i < |findings| && findings[i].severity == highest
  {
    highest := Info;
    var i := 0;
    while i < |findings|
      invariant 0 <= i <= |findings|
      invariant forall j | 0 <= j < i :: !Higher(findings[j].severity, highest)
      invariant highest == Info || exists j :: 0 <= j < i && findings[j].severity == highest
    {
      if Higher(findings[i].severity, highest) {
        highest := findings[i].severity;
      }
      i := i + 1;
    }
  }

  function Scan(file: string, s: Text): seq<Finding> {
    Findings(file, s, |s|)
  }

  predicate HasWarning(findings: seq<Finding>) {
    exists i :: 0 <= i < |findings| && findings[i].severity != Info
  }

  // The two passes agree.

  /** A rune is stripped exactly when the scan reports it at warning or above. */
  lemma PassesAgree(s: Text, i: nat)
    requires i < |s|
    ensures Kept(s, i) <==> Reported(s, i).None? || Reported(s, i).value.severity == Info
  {
  }

  /** How many of the first n runes the scan reports at v. */
  function Occurrences(s: Text, n: nat, v: Severity): nat
    requires n <= |s|
  {
    if n == 0 then
      0
    else
      var e := Reported(s, n - 1);
      Occurrences(s, n - 1, v) + if e.Some? && e.value.severity == v then 1 else 0
  }

  lemma {:induction false} CountsOccurrences(file: string, s: Text, n: nat, v: Severity)
    requires n <= |s|
    ensures Count(Findings(file, s, n), v) == Occurrences(s, n, v)
  {
    if n > 0 {
      CountsOccurrences(file, s, n - 1, v);
      var f, front := Findings(file, s, n), Findings(file, s, n - 1);
      if f != front {
        assert f[..|f| - 1] == front;
      }
    }
  }

  lemma {:induction false} RemovedSoFar(s: Text, n: nat)
    requires n <= |s|
    ensures n - |Stripped(s, n)| == Occurrences(s, n, Critical) + Occurrences(s, n, Warning)
  {
    if n > 0 {
      RemovedSoFar(s, n - 1);
      PassesAgree(s, n - 1);
    }
  }

  /** Stripping removes as many runes as the scan reports at critical or warning. */
  lemma RemovesWhatIsCounted(file: string, s: Text)
    ensures |s| - |Strip(s)| == Count(Scan(file, s), Critical) + Count(Scan(file, s), Warning)
  {
    RemovedSoFar(s, |s|);
    CountsOccurrences(file, s, |s|, Critical);
    CountsOccurrences(file, s, |s|, Warning);
  }

  lemma {:induction false} NoneCounted(findings: seq<Finding>)
    ensures HasWarning(findings) <==> Count(findings, Critical) + Count(findings, Warning) > 0
  {
    if findings != [] {
      var front := findings[..|findings| - 1];
      NoneCounted(front);
      if HasWarning(front) {
        var i :| 0 <= i < |front| && front[i].severity != Info;
        assert findings[i].severity != Info;
      }
      if HasWarning(findings) && !HasWarning(front) {
        var i :| 0 <= i < |findings| && findings[i].severity != Info;
        assert i < |front| ==> front[i].severity != Info;
      }
    }
  }

  lemma {:induction false} ShortOrSame(s: Text, n: nat)
    requires n <= |s| && |Stripped(s, n)| == n
    ensures Stripped(s, n) == s[..n]
  {
    if n > 0 {
      ShortOrSame(s, n - 1);
    }
  }

  /** Stripping changes the text exactly when the scan has a finding at warning or above. */
  lemma ChangesExactly(file: string, s: Text)
    ensures Strip(s) != s <==> HasWarning(Scan(file, s))
  {
    RemovesWhatIsCounted(file, s);
    NoneCounted(Scan(file, s));
    if |Strip(s)| == |s| {
      ShortOrSame(s, |s|);
      assert s[..|s|] == s;
    }
  }

  // Stripping moves runes next to new neighbours, yet changes no verdict.

  lemma {:induction false} StrippedGrows(s: Text, m: nat, n: nat)
    requires m <= n <= |s|
    ensures |Stripped(s, m)| <= |Stripped(s, n)| && Stripped(s, n)[..|Stripped(s, m)|] == Stripped(s, m)
  {
    if m < n {
      StrippedGrows(s, m, n - 1);
    }
  }

  /** Where a kept rune ends up. */
  lemma KeptAt(s: Text, i: nat)
    requires i < |s| && Kept(s, i)
    ensures |Stripped(s, i)| < |Strip(s)| && Strip(s)[|Stripped(s, i)|] == s[i]
  {
    StrippedGrows(s, i + 1, |s|);
  }

  lemma EmojiKept(s: Text, i: nat)
    requires i < |s| && Emoji(s[i])
    ensures Kept(s, i)
  {
    EmojiNotHidden(s[i]);
  }

  /** A rescan makes of every rune kept what the first scan made of it. */
  lemma SameVerdict(s: Text, i: nat)
    requires i < |s| && Kept(s, i)
    ensures |Stripped(s, i)| < |Strip(s)| && Reported(Strip(s), |Stripped(s, i)|) == Reported(s, i)
  {
    KeptAt(s, i);
    if s[i] == JOINER {
      EmojiKept(s, i - 1);
      EmojiKept(s, i + 1);
      KeptAt(s, i - 1);
      KeptAt(s, i + 1);
    }
  }

  lemma KeptCounts(s: Text, i: nat, v: Severity)
    requires i < |s| && Kept(s, i)
    ensures var p := |Stripped(s, i)|;
            && p < |Strip(s)| && |Stripped(s, i + 1)| == p + 1
            && Occurrences(Strip(s), p + 1, v) - Occurrences(Strip(s), p, v)
            == Occurrences(s, i + 1, v) - Occurrences(s, i, v)
            && (v != Info ==> Occurrences(s, i + 1, v) == Occurrences(s, i, v))
  {
    SameVerdict(s, i);
    PassesAgree(s, i);
  }

  lemma {:induction false} VerdictsKept(s: Text, n: nat, v: Severity)
    requires n <= |s|
    ensures |Stripped(s, n)| <= |Strip(s)|
    ensures Occurrences(Strip(s), |Stripped(s, n)|, v) == if v == Info then Occurrences(s, n, v) else 0
  {
    if n > 0 {
      VerdictsKept(s, n - 1, v);
      if Kept(s, n - 1) {
        KeptCounts(s, n - 1, v);
      } else {
        PassesAgree(s, n - 1);
        assert Stripped(s, n) == Stripped(s, n - 1);
      }
    }
  }

  /** After stripping, a rescan finds nothing at warning or above, and as much at info as before. */
  lemma RescanIsClean(file: string, s: Text)
    ensures !HasWarning(Scan(file, Strip(s)))
    ensures Count(Scan(file, Strip(s)), Info) == Count(Scan(file, s), Info)
  {
    var t := Strip(s);
    forall v: Severity
      ensures Count(Scan(file, t), v) == if v == Info then Count(Scan(file, s), v) else 0
    {
      VerdictsKept(s, |s|, v);
      CountsOccurrences(file, t, |t|, v);
      CountsOccurrences(file, s, |s|, v);
    }
    NoneCounted(Scan(file, t));
  }

  lemma StripIsFinal(s: Text)
    ensures Strip(Strip(s)) == Strip(s)
  {
    RescanIsClean("", s);
    ChangesExactly("", Strip(s));
  }

  // Files. A byte that decodes to nothing reads as U+FFFD.

  datatype Unit = Good(r: rune) | Bad(b: byte)

  function Decoded(u: seq<Unit>): Text {
    seq(|u|, i requires 0 <= i < |u| => if u[i].Good? then u[i].r else 0xFFFD)
  }

  function Encoded(s: Text): seq<Unit> {
    seq(|s|, i requires 0 <= i < |s| => Good(s[i]))
  }

  /** utf8.Valid */
  predicate WellFormed(u: seq<Unit>) {
    forall i | 0 <= i < |u| :: u[i].Good?
  }

  function StripRaw(u: seq<Unit>): seq<Unit> {
    Encoded(Strip(Decoded(u)))
  }

  /** A file that is not text is one critical finding. */
  function FileFindings(file: string, u: seq<Unit>): seq<Finding> {
    if WellFormed(u) then Scan(file, Decoded(u)) else [Finding(file, 1, 1, None, Critical, NotText)]
  }

  /** A file that cannot be read has no findings but an error. */
  method ScanFile(path: string, content: Option<seq<Unit>>) returns (findings: Option<seq<Finding>>)
    ensures findings == if content.None? then None else Some(FileFindings(path, content.value))
  {
    if content.None? {
      return None;
    }
    if !WellFormed(content.value) {
      return Some([Finding(path, 1, 1, None, Critical, NotText)]);
    }
    var _, found := ScanText(Decoded(content.value), path);
    return Some(found);
  }

  class File {
    var content: Option<seq<Unit>>  // none if it cannot be read
    var backup: Option<seq<Unit>>

    constructor (content: Option<seq<Unit>>)
      ensures this.content == content && backup == None
    {
      this.content, backup := content, None;
    }

    /** StripFile: backupOk and writeOk say whether the two writes succeed; left is what a failed one leaves,
        none if no readable file. */
    method StripFile(backupOk: bool, writeOk: bool, left: Option<seq<Unit>>) returns (error: bool)
      modifies this
      ensures old(content).None? ==> error && content == old(content) && backup == old(backup)
      ensures old(content).Some? && StripRaw(old(content).value) == old(content).value ==>
                !error && content == old(content) && backup == old(backup)
      ensures old(content).Some? && StripRaw(old(content).value) != old(content).value ==>
                && error == !(backupOk && writeOk)
                && backup == (if backupOk then old(content) else left)
                && content == if !backupOk then old(content)
                              else if writeOk then Some(StripRaw(old(content).value))
                              else left
    {
      if content.None? {
        return true;
      }
      var original := content.value;
      var stripped := StripDangerous(Decoded(original));
      if original == Encoded(stripped) {
        return false;
      }
      if !backupOk {
        backup := left;
        return true;
      }
      backup := Some(original);
      if !writeOk {
        content := left;
        return true;
      }
      content := Some(Encoded(stripped));
      return false;
    }
  }

  /** Stripping a raw text changes it exactly when the scan has a finding at warning or above or the
      text is not well-formed. */
  lemma RawChangesExactly(file: string, u: seq<Unit>)
    ensures StripRaw(u) != u <==> HasWarning(Scan(file, Decoded(u))) || !WellFormed(u)
  {
    var s := Decoded(u);
    ChangesExactly(file, s);
    if WellFormed(u) {
      assert Encoded(s) == u;
      assert Decoded(Encoded(Strip(s))) == Strip(s);
    } else {
      assert WellFormed(Encoded(Strip(s)));
    }
  }

  /** StripFile changes a file exactly when ScanFile finds something at warning or above in it. */
  lemma FileChangesExactly(file: string, u: seq<Unit>)
    ensures StripRaw(u) != u <==> HasWarning(FileFindings(file, u))
  {
    RawChangesExactly(file, u);
    if !WellFormed(u) {
      assert FileFindings(file, u)[0].severity != Info;
    }
  }

  /** A file once stripped scans clean, and stripping it again changes nothing. */
  lemma StrippedFileIsClean(file: string, u: seq<Unit>)
    ensures !HasWarning(FileFindings(file, StripRaw(u)))
    ensures StripRaw(StripRaw(u)) == StripRaw(u)
  {
    var s := Strip(Decoded(u));
    assert Decoded(Encoded(s)) == s;
    RescanIsClean(file, Decoded(u));
    FileChangesExactly(file, StripRaw(u));
  }
}
