/** What tool names look like: the alternatives claim tries, the prefixed names, the sanitized prefixes, and
    which tools are renamed at all. */
module ToolNameForms {
  import opened Basics
  import opened ToolNames
  import opened ToolNameRuns

  function Ascii(b: byte): char {
    b as int as char
  }

  // Cutting a name to fit.

  predicate Edge(b: byte) {
    Ascii(b) in "_-."
  }

  /** t is s if that fits in 64 bytes, and otherwise the last 64 bytes of s less the edge bytes they start
      with. */
  predicate Fitted(s: Name, t: Name) {
    if |s| <= 64 then
      t == s
    else
      && |t| <= 64
      && t == s[|s| - |t|..]
      && (t != [] ==> !Edge(t[0]))
      && forall i | |s| - 64 <= i < |s| - |t| :: Edge(s[i])
  }

  lemma OneFitted(s: Name, t: Name, u: Name)
    requires Fitted(s, t) && Fitted(s, u) && |t| <= |u|
    ensures t == u
  {
    assert u != [] ==> u[0] == s[|s| - |u|];
  }

  lemma FittedExactly(s: Name, t: Name)
    ensures Fitted(s, t) <==> t == Truncate(s)
  {
    TruncateExactly(s);
    assert Fitted(s, Truncate(s));
    if Fitted(s, t) {
      if |t| <= |Truncate(s)| {
        OneFitted(s, t, Truncate(s));
      } else {
        OneFitted(s, Truncate(s), t);
      }
    }
  }

  // Numbers

  /** d is n in decimal, without leading zeros. */
  predicate Decimal(n: nat, d: Name) {
    && d != [] && Value(d) == n
    && (forall i | 0 <= i < |d| :: '0' <= Ascii(d[i]) <= '9')
    && (|d| > 1 ==> Ascii(d[0]) != '0')
  }

  lemma {:induction false} ValueBounds(d: Name)
    requires forall i | 0 <= i < |d| :: '0' <= Ascii(d[i]) <= '9'
    ensures Value(d) >= 0
    ensures d != [] && Ascii(d[0]) != '0' ==> Value(d) > 0
  {
    if d != [] {
      ValueBounds(d[..|d| - 1]);
    }
  }

  lemma {:induction false} DecimalIsDigits(n: nat, d: Name)
    requires Decimal(n, d)
    ensures d == Digits(n)
  {
    var front := d[..|d| - 1];
    ValueBounds(front);
    if front == [] {
      assert Value(front) == 0;
      assert d == [d[0]];
    } else {
      DecimalIsDigits(n / 10, front);
      assert d == front + [d[|d| - 1]];
    }
  }

  lemma {:induction false} DigitsAreDecimal(n: nat)
    ensures Decimal(n, Digits(n))
  {
    DigitsValue(n);
    if n >= 10 {
      DigitsAreDecimal(n / 10);
      var d := Digits(n / 10);
      assert |d| == 1 ==> Value(d) == d[0] as int - 0x30;
      assert Digits(n)[0] == d[0];
    }
  }

  lemma DecimalExactly(n: nat, d: Name)
    ensures Decimal(n, d) <==> d == Digits(n)
  {
    DigitsAreDecimal(n);
    if Decimal(n, d) {
      DecimalIsDigits(n, d);
    }
  }

  // The names claim hands out.

  /** alt is the wanted name with an underscore and the number k behind it, cut to fit. */
  predicate Alternative(want: Name, k: nat, alt: Name) {
    Fitted(want + [0x5F] + Digits(k), alt)
  }

  lemma AlternativeExactly(want: Name, k: nat, alt: Name)
    ensures Alternative(want, k, alt) <==> alt == Candidate(want, k)
    ensures |want| + 1 + |Digits(k)| <= 64 ==> (Alternative(want, k, alt) <==> alt == want + [0x5F] + Digits(k))
  {
    FittedExactly(want + [0x5F] + Digits(k), alt);
  }

  /** name is the k-th alternative, and the first, counting from 2, that is free. */
  ghost predicate FirstFreeAlternative(taken: set<Name>, want: Name, k: nat, name: Name) {
    && 2 <= k && Alternative(want, k, name) && name !in taken
    && forall m: nat, alt | 2 <= m < k && Alternative(want, m, alt) :: alt in taken
  }

  /** What claim promises for a name. */
  ghost predicate Granted(taken: set<Name>, want: Name, name: Name) {
    if want !in taken then name == want else exists k: nat :: FirstFreeAlternative(taken, want, k, name)
  }

  lemma FirstFreeIs(taken: set<Name>, want: Name, k: nat, name: Name)
    requires Roomy(taken) && FirstFreeAlternative(taken, want, k, name)
    ensures name == Candidate(want, FirstFree(taken, want, 2)) && k == FirstFree(taken, want, 2)
  {
    var f := FirstFree(taken, want, 2);
    AlternativeExactly(want, k, name);
    AlternativeExactly(want, f, Candidate(want, f));
    assert Alternative(want, f, Candidate(want, f));
  }

  lemma FirstFreeIsAlternative(taken: set<Name>, want: Name)
    requires Roomy(taken)
    ensures var k := FirstFree(taken, want, 2); FirstFreeAlternative(taken, want, k, Candidate(want, k))
  {
    var k := FirstFree(taken, want, 2);
    AlternativeExactly(want, k, Candidate(want, k));
    forall m: nat, alt | 2 <= m < k && Alternative(want, m, alt) ensures alt in taken {
      AlternativeExactly(want, m, alt);
    }
  }

  /** claim gives the wanted name if it is free, and otherwise the first free alternative, and nothing else;
      its number is at most two above the number of names taken. */
  lemma ClaimedExactly(taken: set<Name>, want: Name, name: Name)
    requires Roomy(taken)
    ensures name == Claimed(taken, want) <==> Granted(taken, want, name)
    ensures want in taken ==>
              exists k: nat :: k <= |taken| + 2 && FirstFreeAlternative(taken, want, k, Claimed(taken, want))
  {
    FirstFreeIsAlternative(taken, want);
    if want in taken && Granted(taken, want, name) {
      var k: nat :| FirstFreeAlternative(taken, want, k, name);
      FirstFreeIs(taken, want, k, name);
    }
  }

  // Sanitized prefixes.

  /** The characters a toolset's name keeps, underscores aside. */
  predicate Letter(r: rune) {
    var n := r as int;
    || 'a' as int <= n <= 'z' as int || 'A' as int <= n <= 'Z' as int || '0' as int <= n <= '9' as int
    || n == '-' as int || n == '.' as int
  }

  /** The words of a text: a letter right behind another goes on with its word, any other starts one. */
  function Words(s: seq<rune>): (ws: seq<Name>)
    ensures forall i | 0 <= i < |ws| :: ws[i] != []
    ensures s != [] && Letter(s[|s| - 1]) ==> ws != []
  {
    if s == [] then
      []
    else
      var front, last := s[..|s| - 1], s[|s| - 1];
      var ws := Words(front);
      if !Letter(last) then ws
      else if front != [] && Letter(front[|front| - 1]) then
        ws[|ws| - 1 := ws[|ws| - 1] + [last as byte]]
      else
        ws + [[last as byte]]
  }

  function Joined(ws: seq<Name>): Name {
    if ws == [] then [] else if |ws| == 1 then ws[0] else Joined(ws[..|ws| - 1]) + [0x5F] + ws[|ws| - 1]
  }

  function Lead(s: seq<rune>): Name {
    if s != [] && !Letter(s[0]) then [0x5F] else []
  }

  function Trail(s: seq<rune>): Name {
    if Words(s) != [] && !Letter(s[|s| - 1]) then [0x5F] else []
  }

  lemma JoinedExtended(ws: seq<Name>, b: byte)
    requires ws != []
    ensures Joined(ws[|ws| - 1 := ws[|ws| - 1] + [b]]) == Joined(ws) + [b]
  {
    var xs := ws[|ws| - 1 := ws[|ws| - 1] + [b]];
    assert xs[..|ws| - 1] == ws[..|ws| - 1];
  }

  lemma JoinedMore(ws: seq<Name>, b: byte)
    ensures Joined(ws + [[b]]) == (if ws == [] then [] else Joined(ws) + [0x5F]) + [b]
  {
    assert (ws + [[b]])[..|ws|] == ws;
  }

  lemma AcceptsLetters(r: rune)
    ensures Letter(r) ==> Accept(r) == r as byte && Accept(r) != 0x5F
    ensures !Letter(r) ==> Accept(r) == 0x5F
  {
  }

  lemma {:induction false} NoWordYet(s: seq<rune>)
    requires s != [] && Words(s) == []
    ensures Collapsed(s) == [0x5F] && !Letter(s[0]) && !Letter(s[|s| - 1])
  {
    var front := s[..|s| - 1];
    AcceptsLetters(s[|s| - 1]);
    if front != [] {
      NoWordYet(front);
    }
  }

  /** No word ends in an underscore. */
  lemma {:induction false} WordsClean(s: seq<rune>)
    ensures forall i, k | 0 <= i < |Words(s)| && 0 <= k < |Words(s)[i]| :: Words(s)[i][k] != 0x5F
  {
    if s != [] {
      WordsClean(s[..|s| - 1]);
      AcceptsLetters(s[|s| - 1]);
    }
  }

  lemma {:induction false} JoinedEdges(ws: seq<Name>)
    requires ws != [] && forall i | 0 <= i < |ws| :: ws[i] != []
    requires forall i, k | 0 <= i < |ws| && 0 <= k < |ws[i]| :: ws[i][k] != 0x5F
    ensures Joined(ws) != [] && Joined(ws)[0] != 0x5F && Joined(ws)[|Joined(ws)| - 1] != 0x5F
  {
    if |ws| > 1 {
      JoinedEdges(ws[..|ws| - 1]);
    }
  }

  lemma FirstWord(front: seq<rune>, last: rune)
    requires Words(front) == [] && Letter(last)
    ensures Words(front + [last]) == [[last as byte]]
    ensures Collapsed(front + [last]) == Lead(front + [last]) + [last as byte]
  {
    assert (front + [last])[..|front|] == front;
    AcceptsLetters(last);
    if front != [] {
      NoWordYet(front);
    }
  }

  lemma CollapsedEnd(front: seq<rune>)
    requires Words(front) != [] && Collapsed(front) == Lead(front) + Joined(Words(front)) + Trail(front)
    ensures front != [] && Collapsed(front) != []
    ensures Collapsed(front)[|Collapsed(front)| - 1] == 0x5F <==> !Letter(front[|front| - 1])
  {
    WordsClean(front);
    JoinedEdges(Words(front));
  }

  lemma WordsAppended(front: seq<rune>, last: rune)
    requires Words(front) != [] && Letter(last)
    ensures var ws := Words(front);
            Words(front + [last]) ==
            if Trail(front) == [] then ws[|ws| - 1 := ws[|ws| - 1] + [last as byte]] else ws + [[last as byte]]
    ensures Trail(front + [last]) == []
  {
    var s := front + [last];
    assert s[..|s| - 1] == front && s[|s| - 1] == last;
  }

  lemma JoinedAppended(front: seq<rune>, last: rune)
    requires Words(front) != [] && Letter(last)
    ensures Joined(Words(front + [last])) == Joined(Words(front)) + Trail(front) + [last as byte]
  {
    WordsAppended(front, last);
    JoinedExtended(Words(front), last as byte);
    JoinedMore(Words(front), last as byte);
    assert Joined(Words(front)) + [] == Joined(Words(front));
  }

  lemma LetterAppended(front: seq<rune>, last: rune)
    requires Words(front) != [] && Letter(last)
    requires Collapsed(front) == Lead(front) + Joined(Words(front)) + Trail(front)
    ensures Collapsed(front + [last]) == Lead(front + [last]) + Joined(Words(front + [last])) + Trail(front + [last])
  {
    JoinedAppended(front, last);
    WordsAppended(front, last);
    AcceptsLetters(last);
    assert (front + [last])[..|front|] == front;
    ConcatThree(Lead(front), Joined(Words(front)), Trail(front));
    ConcatThree(Lead(front), Joined(Words(front)) + Trail(front), [last as byte]);
  }

  lemma SeparatorAppended(front: seq<rune>, last: rune)
    requires Words(front) != [] && !Letter(last)
    requires Collapsed(front) == Lead(front) + Joined(Words(front)) + Trail(front)
    ensures Collapsed(front + [last]) == Lead(front + [last]) + Joined(Words(front + [last])) + Trail(front + [last])
  {
    CollapsedEnd(front);
    AcceptsLetters(last);
    assert (front + [last])[..|front|] == front;
  }

  lemma {:induction false} CollapsedIs(s: seq<rune>)
    requires Words(s) != []
    ensures Collapsed(s) == Lead(s) + Joined(Words(s)) + Trail(s)
  {
    var front, last := s[..|s| - 1], s[|s| - 1];
    assert s == front + [last];
    if Words(front) == [] {
      FirstWord(front, last);
      assert Joined([[last as byte]]) == [last as byte];
    } else {
      CollapsedIs(front);
      if Letter(last) {
        LetterAppended(front, last);
      } else {
        SeparatorAppended(front, last);
      }
    }
  }

  lemma TrimLead(x: Name, y: Name)
    requires x != [] && x[0] != 0x5F
    ensures TrimUnderscoresLeft(x + y) == x + y && TrimUnderscoresLeft([0x5F] + x + y) == x + y
  {
    assert ([0x5F] + x + y)[1..] == x + y;
  }

  lemma TrimTrail(x: Name)
    requires x != [] && x[|x| - 1] != 0x5F
    ensures TrimUnderscoresRight(x) == x && TrimUnderscoresRight(x + [0x5F]) == x
  {
    assert (x + [0x5F])[..|x|] == x;
  }

  lemma TrimmedEdges(s: seq<rune>, x: Name)
    requires x != [] && x[0] != 0x5F && x[|x| - 1] != 0x5F
    ensures TrimUnderscores(Lead(s) + x + Trail(s)) == x
  {
    TrimLead(x, Trail(s));
    TrimTrail(x);
    assert [] + x + Trail(s) == x + Trail(s);
    assert x + [] == x;
  }

  /** A sanitized name is the words of the name, with single underscores between them. */
  lemma SanitizedIsWords(s: seq<rune>)
    ensures Sanitized(s) == Joined(Words(s))
  {
    if Words(s) == [] {
      if s != [] {
        NoWordYet(s);
        var edge: Name := [0x5F];
        assert edge[1..] == [];
      }
    } else {
      CollapsedIs(s);
      WordsClean(s);
      JoinedEdges(Words(s));
      TrimmedEdges(s, Joined(Words(s)));
    }
  }

  function Bytes(s: string): Name
    requires forall i | 0 <= i < |s| :: s[i] < 128 as char
  {
    seq(|s|, i requires 0 <= i < |s| => s[i] as int as byte)
  }

  /** The prefixed name: the toolset's words, or "mcp" if it has none, then the tool's own name, cut to
      fit. */
  ghost predicate PrefixedSo(toolset: seq<rune>, name: Name, t: Name) {
    Fitted((if Words(toolset) == [] then Bytes("mcp") else Joined(Words(toolset))) + [0x5F] + name, t)
  }

  lemma PrefixedExactly(toolset: seq<rune>, name: Name, t: Name)
    ensures PrefixedSo(toolset, name, t) <==> t == Prefixed(toolset, name)
  {
    SanitizedIsWords(toolset);
    if Words(toolset) != [] {
      WordsClean(toolset);
      JoinedEdges(Words(toolset));
    }
    var prefix := if Words(toolset) == [] then Bytes("mcp") else Joined(Words(toolset));
    assert Bytes("mcp") == [0x6D, 0x63, 0x70];
    FittedExactly(prefix + [0x5F] + name, t);
  }

  /** A tool gets its own name if that is free, else the prefixed one if that is free, else the first free
      alternative to the prefixed one. */
  lemma NewNameExactly(taken: set<Name>, toolset: seq<rune>, orig: Name, name: Name)
    requires Roomy(taken)
    ensures name == NewName(taken, toolset, orig) <==>
            if orig !in taken then name == orig
            else exists p :: PrefixedSo(toolset, orig, p) && Granted(taken, p, name)
  {
    var p := Prefixed(toolset, orig);
    PrefixedExactly(toolset, orig, p);
    ClaimedExactly(taken, p, name);
    if q :| PrefixedSo(toolset, orig, q) && Granted(taken, q, name) {
      PrefixedExactly(toolset, orig, q);
    }
  }

  // Who is renamed.

  ghost predicate NamedSo(s: State, n: Name) {
    exists i: nat, o :: Given(s, i, o) && NameOf(s, i, o) == n
  }

  ghost predicate Accounted(builtins: set<Name>, s: State) {
    && (forall n | n in s.taken :: n in builtins || NamedSo(s, n))
    && (forall i: nat, o | Given(s, i, o) :: NameOf(s, i, o) == o || o in s.taken)
    && (forall i: nat | i < |s.toolsets| && s.toolsets[i].phase.Checked? && s.toolsets[i].phase.wasTaken ::
          s.toolsets[i].phase.orig in s.taken)
  }

  lemma AccountedStep(builtins: set<Name>, s: State, e: Step)
    requires Inv(builtins, s) && Accounted(builtins, s) && Can(s, e)
    ensures Accounted(builtins, Do(s, e))
  {
    var t := Do(s, e);
    StepGives(s, e);
    forall n | n in t.taken ensures n in builtins || NamedSo(t, n) {
      if n in s.taken && n !in builtins {
        var i: nat, o :| Given(s, i, o) && NameOf(s, i, o) == n;
        assert Given(t, i, o) && NameOf(t, i, o) == n;
      } else if n !in s.taken {
        var o := s.toolsets[e.i].phase.orig;
        assert Given(t, e.i, o) && NameOf(t, e.i, o) == n;
      }
    }
  }

  lemma {:induction false} AccountedAlways(builtins: set<Name>, run: Run, k: nat)
    requires IsRun(builtins, run) && k < |run.states|
    ensures Accounted(builtins, run.states[k])
  {
    if k > 0 {
      AccountedAlways(builtins, run, k - 1);
      InvAlways(builtins, run, k - 1);
      assert Follows(run, k - 1);
      AccountedStep(builtins, run.states[k - 1], run.steps[k - 1]);
    }
  }

  /** However checks and claims interleave, a tool keeps its own name exactly when no built-in tool has that
      name and no other tool was given it. */
  lemma RenamedExactly(builtins: set<Name>, run: Run, k: nat, i: nat, o: Name)
    requires IsRun(builtins, run) && k < |run.states| && Given(run.states[k], i, o)
    ensures var s := run.states[k];
            NameOf(s, i, o) != o <==>
            o in builtins || exists j: nat, p :: (j, p) != (i, o) && Given(s, j, p) && NameOf(s, j, p) == o
  {
    var s := run.states[k];
    InvAlways(builtins, run, k);
    AccountedAlways(builtins, run, k);
    if NameOf(s, i, o) != o && o !in builtins {
      var j: nat, p :| Given(s, j, p) && NameOf(s, j, p) == o;
      assert (j, p) != (i, o);
    }
  }

  /** Where the name of tool (i, o) comes from: a claim c of its toolset, after which it had this name, made
      for the name o itself, or for the prefixed one, and for that only if o was taken. */
  ghost predicate ClaimedAt(run: Run, c: nat, i: nat, o: Name, name: Name) {
    && c < |run.steps| && |run.states| == |run.steps| + 1
    && i < |run.states[c].toolsets|
    && run.steps[c] == Claim(i) && !Given(run.states[c], i, o)
    && var taken := run.states[c].taken;
       || Granted(taken, o, name)
       || (o in taken && exists p :: PrefixedSo(run.states[c].toolsets[i].name, o, p) && Granted(taken, p, name))
  }

  lemma ClaimsSo(builtins: set<Name>, run: Run, c: nat, i: nat, o: Name)
    requires IsRun(builtins, run) && c < |run.steps|
    requires !Given(run.states[c], i, o) && Given(run.states[c + 1], i, o)
    ensures ClaimedAt(run, c, i, o, NameOf(run.states[c + 1], i, o))
  {
    var s, e := run.states[c], run.steps[c];
    InvAlways(builtins, run, c);
    AccountedAlways(builtins, run, c);
    assert Follows(run, c);
    StepGives(s, e);
    var t := s.toolsets[i];
    var name := NameOf(run.states[c + 1], i, o);
    assert name == Claimed(s.taken, Wanted(t));
    ClaimedExactly(s.taken, Wanted(t), name);
    PrefixedExactly(t.name, o, Prefixed(t.name, o));
  }

  /** Every name ever given was claimed in this way, at one step of the run. */
  lemma {:induction false} NamesExplained(builtins: set<Name>, run: Run, k: nat, i: nat, o: Name)
    requires IsRun(builtins, run) && k < |run.states| && Given(run.states[k], i, o)
    ensures exists c: nat :: c < k && ClaimedAt(run, c, i, o, NameOf(run.states[k], i, o))
  {
    assert k > 0;
    if Given(run.states[k - 1], i, o) {
      NamesStable(builtins, run, k - 1, k);
      NamesExplained(builtins, run, k - 1, i, o);
    } else {
      ClaimsSo(builtins, run, k - 1, i, o);
    }
  }

  // Lists

  /** The names present, and where: all that are, in order. */
  ghost predicate PresentAt<T>(xs: seq<Option<T>>, at: seq<nat>) {
    && |at| == |Present(xs)|
    && (forall j, k | 0 <= j < k < |at| :: at[j] < at[k])
    && (forall k | 0 <= k < |at| :: at[k] < |xs| && xs[at[k]] == Some(Present(xs)[k]))
    && forall i: nat | i < |xs| && xs[i].Some? :: i in at
  }

  lemma {:induction false} PresentExactly<T>(xs: seq<Option<T>>) returns (at: seq<nat>)
    ensures PresentAt(xs, at)
  {
    if xs == [] {
      at := [];
    } else {
      var last := |xs| - 1;
      at := PresentExactly(xs[..last]);
      if xs[last].Some? {
        at := at + [last];
      }
    }
  }

  /** The built-in names are those of the tools that are not nil. */
  lemma {:induction false} BuiltinsExactly(tools: seq<Option<Name>>, n: Name)
    ensures n in Builtins(tools) <==> Some(n) in tools
  {
    if tools != [] {
      BuiltinsExactly(tools[..|tools| - 1], n);
    }
  }

  /** A list has the name assigned to each tool that is there, in order. */
  lemma {:induction false} ListedExactly(inner: seq<Option<Name>>, names: map<Name, Name>)
    requires forall a | 0 <= a < |inner| && inner[a].Some? :: inner[a].value in names
    ensures |Renamed(inner, names)| == |Present(inner)|
    ensures forall k | 0 <= k < |Present(inner)| ::
              Present(inner)[k] in names && Renamed(inner, names)[k] == names[Present(inner)[k]]
  {
    if inner != [] {
      ListedExactly(inner[..|inner| - 1], names);
    }
  }
}
