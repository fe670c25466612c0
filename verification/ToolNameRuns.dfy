/** Tool names when toolsets are listed at the same time: checking a name and claiming one are two separate
    critical sections, so claims of other toolsets may come in between. */
module ToolNameRuns {
  import opened Basics
  import opened ToolNames

  /** Where a toolset's nameFor stands; its own lock lets one call in at a time. */
  datatype Phase = Idle | Checked(orig: Name, wasTaken: bool)

  datatype Toolset = Toolset(name: seq<rune>, names: map<Name, Name>, phase: Phase)

  datatype State = State(taken: set<Name>, toolsets: seq<Toolset>)

  datatype Step =
    | Check(i: nat, orig: Name)  // isTaken
    | Claim(i: nat)              // claim, and remembering the name

  ghost predicate Init(builtins: set<Name>, s: State) {
    && s.taken == builtins
    && forall i | 0 <= i < |s.toolsets| :: s.toolsets[i].names == map[] && s.toolsets[i].phase == Idle
  }

  predicate Can(s: State, e: Step) {
    && e.i < |s.toolsets|
    && match e
       case Check(i, orig) => s.toolsets[i].phase == Idle && orig !in s.toolsets[i].names
       case Claim(i) => s.toolsets[i].phase.Checked? && Roomy(s.taken)
  }

  function Wanted(t: Toolset): Name
    requires t.phase.Checked?
  {
    if t.phase.wasTaken then Prefixed(t.name, t.phase.orig) else t.phase.orig
  }

  function Do(s: State, e: Step): State
    requires Can(s, e)
  {
    var t := s.toolsets[e.i];
    match e
    case Check(i, orig) =>
      s.(toolsets := s.toolsets[i := t.(phase := Checked(orig, orig in s.taken))])
    case Claim(i) =>
      var final := Claimed(s.taken, Wanted(t));
      State(s.taken + {final},
            s.toolsets[i := t.(names := t.names[t.phase.orig := final], phase := Idle)])
  }

  /** Left alone between its two steps, nameFor gives exactly the name NameFor computes. */
  lemma NameForIsTwoSteps(s: State, i: nat, orig: Name)
    requires Can(s, Check(i, orig)) && Roomy(s.taken)
    ensures var c := Do(s, Check(i, orig));
            var final := NewName(s.taken, s.toolsets[i].name, orig);
            && Can(c, Claim(i))
            && Do(c, Claim(i)).taken == s.taken + {final}
            && Do(c, Claim(i)).toolsets[i].names == s.toolsets[i].names[orig := final]
  {
  }

  // Runs

  datatype Run = Run(states: seq<State>, steps: seq<Step>)

  predicate Follows(run: Run, k: nat)
    requires |run.states| == |run.steps| + 1 && k < |run.steps|
  {
    Can(run.states[k], run.steps[k]) && run.states[k + 1] == Do(run.states[k], run.steps[k])
  }

  ghost predicate IsRun(builtins: set<Name>, run: Run) {
    && |run.states| == |run.steps| + 1
    && Init(builtins, run.states[0])
    && forall k | 0 <= k < |run.steps| :: Follows(run, k)
  }

  predicate Given(s: State, i: nat, orig: Name) {
    i < |s.toolsets| && orig in s.toolsets[i].names
  }

  function NameOf(s: State, i: nat, orig: Name): Name
    requires Given(s, i, orig)
  {
    s.toolsets[i].names[orig]
  }

  // Every name given is claimed, is no built-in name, and fits.
  ghost predicate Owned(builtins: set<Name>, s: State) {
    && builtins <= s.taken
    && forall i: nat, o | Given(s, i, o) ::
         var n := NameOf(s, i, o);
         n in s.taken && n !in builtins && (n == o || |n| <= MAX_NAME)
  }

  ghost predicate Distinct(s: State) {
    forall i: nat, o, j: nat, p | Given(s, i, o) && Given(s, j, p) && (i, o) != (j, p) ::
      NameOf(s, i, o) != NameOf(s, j, p)
  }

  // A name being looked for has not been given.
  ghost predicate Pending(s: State) {
    forall i: nat | i < |s.toolsets| && s.toolsets[i].phase.Checked? :: !Given(s, i, s.toolsets[i].phase.orig)
  }

  ghost predicate Inv(builtins: set<Name>, s: State) {
    Owned(builtins, s) && Distinct(s) && Pending(s)
  }

  /** The names given in s are given, and the same, in t. */
  ghost predicate Kept(s: State, t: State) {
    && |t.toolsets| == |s.toolsets|
    && forall i: nat, o | Given(s, i, o) :: Given(t, i, o) && NameOf(t, i, o) == NameOf(s, i, o)
  }

  /** A step gives at most one name, to one original that had none, and the name was free. */
  lemma StepGives(s: State, e: Step)
    requires Can(s, e) && Pending(s)
    ensures Kept(s, Do(s, e))
    ensures forall i: nat, o | Given(Do(s, e), i, o) && !Given(s, i, o) ::
              && e.Claim? && i == e.i && o == s.toolsets[i].phase.orig
              && NameOf(Do(s, e), i, o) !in s.taken
              && NameOf(Do(s, e), i, o) in Do(s, e).taken
              && (NameOf(Do(s, e), i, o) == o || |NameOf(Do(s, e), i, o)| <= MAX_NAME)
  {
  }

  lemma InvStep(builtins: set<Name>, s: State, e: Step)
    requires Inv(builtins, s) && Can(s, e)
    ensures Inv(builtins, Do(s, e))
  {
    StepGives(s, e);
  }

  lemma {:induction false} InvAlways(builtins: set<Name>, run: Run, k: nat)
    requires IsRun(builtins, run) && k < |run.states|
    ensures Inv(builtins, run.states[k])
  {
    if k > 0 {
      InvAlways(builtins, run, k - 1);
      assert Follows(run, k - 1);
      InvStep(builtins, run.states[k - 1], run.steps[k - 1]);
    }
  }

  /** However the toolsets' checks and claims interleave, no two tools share a model-facing name, none has
      a built-in's name, and a name other than the tool's own is at most 64 bytes long. */
  lemma NamesUnique(builtins: set<Name>, run: Run, k: nat, i: nat, o: Name, j: nat, p: Name)
    requires IsRun(builtins, run) && k < |run.states|
    requires Given(run.states[k], i, o) && Given(run.states[k], j, p)
    ensures NameOf(run.states[k], i, o) !in builtins
    ensures NameOf(run.states[k], i, o) == o || |NameOf(run.states[k], i, o)| <= MAX_NAME
    ensures NameOf(run.states[k], i, o) == NameOf(run.states[k], j, p) <==> i == j && o == p
  {
    InvAlways(builtins, run, k);
  }

  /** A name once given never changes. */
  lemma {:induction false} NamesStable(builtins: set<Name>, run: Run, a: nat, b: nat)
    requires IsRun(builtins, run) && a <= b < |run.states|
    ensures Kept(run.states[a], run.states[b])
  {
    if a < b {
      NamesStable(builtins, run, a, b - 1);
      assert Follows(run, b - 1);
      InvAlways(builtins, run, b - 1);
      StepGives(run.states[b - 1], run.steps[b - 1]);
    }
  }

  ghost predicate NoDuplicates<T>(xs: seq<T>) {
    forall a, b | 0 <= a < b < |xs| :: xs[a] != xs[b]
  }

  lemma {:induction false} RenamedFrom(inner: seq<Option<Name>>, names: map<Name, Name>, n: Name)
    requires forall a | 0 <= a < |inner| && inner[a].Some? :: inner[a].value in names
    requires n in Renamed(inner, names)
    ensures exists a :: 0 <= a < |inner| && inner[a].Some? && names[inner[a].value] == n
  {
    if inner != [] {
      var front := inner[..|inner| - 1];
      if n in Renamed(front, names) {
        RenamedFrom(front, names, n);
        var a :| 0 <= a < |front| && front[a].Some? && names[front[a].value] == n;
        assert inner[a] == front[a];
      } else {
        assert inner[|inner| - 1].Some?;
      }
    }
  }

  /** The tools of one request: distinct tools are listed under distinct names. The list may be read
      while other toolsets are claiming; each of its entries is the name given for good. */
  lemma {:induction false} ListUnique(builtins: set<Name>, run: Run, k: nat, i: nat, inner: seq<Option<Name>>)
    requires IsRun(builtins, run) && k < |run.states| && i < |run.states[k].toolsets|
    requires forall a | 0 <= a < |inner| && inner[a].Some? :: Given(run.states[k], i, inner[a].value)
    requires forall a, b | 0 <= a < b < |inner| && inner[a].Some? :: inner[a] != inner[b]
    ensures NoDuplicates(Renamed(inner, run.states[k].toolsets[i].names))
  {
    if inner != [] {
      var s, front, last := run.states[k], inner[..|inner| - 1], inner[|inner| - 1];
      var names := s.toolsets[i].names;
      ListUnique(builtins, run, k, i, front);
      if last.Some? && names[last.value] in Renamed(front, names) {
        RenamedFrom(front, names, names[last.value]);
        var a :| 0 <= a < |front| && front[a].Some? && names[front[a].value] == names[last.value];
        assert inner[a] == front[a];
        NamesUnique(builtins, run, k, i, inner[a].value, i, last.value);
      }
    }
  }

  // What sanitizing and truncating keep.

  predicate AcceptedByte(b: byte) {
    b as int <= 0x7F && Accepted(b as int as rune)
  }

  /** Only accepted characters, and no two underscores in a row. */
  predicate Neat(s: Name) {
    && (forall i | 0 <= i < |s| :: AcceptedByte(s[i]))
    && forall i | 0 < i < |s| :: s[i - 1] != UNDERSCORE || s[i] != UNDERSCORE
  }

  predicate NoEdge(s: Name) {
    s != [] ==> s[0] != UNDERSCORE && s[|s| - 1] != UNDERSCORE
  }

  lemma {:induction false} CollapsedNeat(s: seq<rune>)
    ensures Neat(Collapsed(s))
  {
    if s != [] {
      CollapsedNeat(s[..|s| - 1]);
      assert AcceptedByte(Accept(s[|s| - 1]));
    }
  }

  lemma {:induction false} LeftNeat(s: Name)
    requires Neat(s)
    ensures var t := TrimUnderscoresLeft(s); Neat(t) && (t != [] ==> t[0] != UNDERSCORE)
  {
    if s != [] && s[0] == UNDERSCORE {
      assert Neat(s[1..]);
      LeftNeat(s[1..]);
    }
  }

  lemma {:induction false} RightNeat(s: Name)
    requires Neat(s) && (s != [] ==> s[0] != UNDERSCORE)
    ensures Neat(TrimUnderscoresRight(s)) && NoEdge(TrimUnderscoresRight(s))
  {
    if s != [] && s[|s| - 1] == UNDERSCORE {
      RightNeat(s[..|s| - 1]);
    }
  }

  function Runes(s: Name): seq<rune> {
    seq(|s|, i requires 0 <= i < |s| => s[i] as int as rune)
  }

  lemma {:induction false} CollapsedFixed(s: Name)
    requires Neat(s)
    ensures Collapsed(Runes(s)) == s
  {
    if s != [] {
      var front := s[..|s| - 1];
      assert Runes(s)[..|s| - 1] == Runes(front);
      CollapsedFixed(front);
      assert AcceptedByte(s[|s| - 1]);
    }
  }

  /** A sanitized toolset name holds accepted characters only, no run of underscores and none at an
      edge; and sanitizing changes nothing exactly when the name was like that already. */
  lemma SanitizedExactly(s: seq<rune>, t: Name)
    ensures Neat(Sanitized(s)) && NoEdge(Sanitized(s))
    ensures Sanitized(Runes(t)) == t <==> Neat(t) && NoEdge(t)
  {
    CollapsedNeat(s);
    LeftNeat(Collapsed(s));
    RightNeat(TrimUnderscoresLeft(Collapsed(s)));
    if Sanitized(Runes(t)) == t {
      CollapsedNeat(Runes(t));
      LeftNeat(Collapsed(Runes(t)));
      RightNeat(TrimUnderscoresLeft(Collapsed(Runes(t))));
    }
    if Neat(t) && NoEdge(t) {
      CollapsedFixed(t);
    }
  }

  predicate EndsIn(s: Name, name: Name) {
    |name| <= |s| && s[|s| - |name|..] == name
  }

  predicate AllTrimmable(s: Name) {
    forall i | 0 <= i < |s| :: Trimmable(s[i])
  }

  /** Truncation from the front keeps the tool's own name whole exactly when the name fits and does not
      lose its first byte to the trimming, which nothing of the prefix then holds back. */
  lemma OwnNameKept(prefix: Name, name: Name)
    ensures var s := prefix + [UNDERSCORE] + name;
            EndsIn(Truncate(s), name) <==>
            || |s| <= MAX_NAME
            || (|name| <= MAX_NAME
                && (|| name == []
                    || !Trimmable(name[0])
                    || !AllTrimmable((prefix + [UNDERSCORE])[|s| - MAX_NAME..])))
  {
    var p := prefix + [UNDERSCORE];
    var s := p + name;
    if |s| <= MAX_NAME {
      DropConcat(p, name, |p|);
    } else if |name| <= MAX_NAME {
      var kept := p[|s| - MAX_NAME..];
      DropConcat(p, name, |s| - MAX_NAME);
      OwnNameTrimmed(kept, name);
    }
  }

  /** A colliding tool gets the empty name exactly when truncation leaves nothing but trimmable bytes. */
  lemma EmptyNameExactly(toolset: seq<rune>, name: Name)
    ensures var prefix := if Sanitized(toolset) == [] then [0x6D, 0x63, 0x70] else Sanitized(toolset);
            var s := prefix + [UNDERSCORE] + name;
            Prefixed(toolset, name) == [] <==> |s| > MAX_NAME && AllTrimmable(s[|s| - MAX_NAME..])
  {
    var prefix := if Sanitized(toolset) == [] then [0x6D, 0x63, 0x70] else Sanitized(toolset);
    var s := prefix + [UNDERSCORE] + name;
    if |s| > MAX_NAME {
      var cut := s[|s| - MAX_NAME..];
      TrimLeftSuffix(cut);
      var t := TrimLeft(cut);
      assert t != [] ==> t[0] == cut[|cut| - |t|];
    }
  }

  lemma OwnNameTrimmed(p: Name, name: Name)
    ensures EndsIn(TrimLeft(p + name), name) <==> name == [] || !Trimmable(name[0]) || !AllTrimmable(p)
  {
    TrimLeftConcat(p, name);
    TrimLeftSuffix(p);
    var t := TrimLeft(p);
    if t == [] {
      assert AllTrimmable(p);
      WholeUntrimmed(name);
    } else {
      assert t[0] == p[|p| - |t|];
      DropConcat(t, name, |t|);
      assert EndsIn(t + name, name);
    }
  }

  lemma WholeUntrimmed(name: Name)
    ensures EndsIn(TrimLeft(name), name) <==> name == [] || !Trimmable(name[0])
  {
    if name != [] && Trimmable(name[0]) {
      assert |TrimLeft(name)| < |name|;
    } else {
      assert name[0..] == name;
    }
  }

  // The failures happen.

  /** An underscore and letters, as long as a name may be but one. */
  function Underscored(): Name {
    [UNDERSCORE] + seq(62, i => 0x61 as byte)
  }

  /** The name of a tool can lose its first byte although it fits. */
  lemma OwnNameLost()
    ensures |Underscored()| <= MAX_NAME && !EndsIn(Prefixed([], Underscored()), Underscored())
  {
    var name, mcp: Name := Underscored(), [0x6D, 0x63, 0x70];
    assert Sanitized([]) == [];
    var p := mcp + [UNDERSCORE];
    assert |p + name| - MAX_NAME == 3 && p[3..] == [UNDERSCORE];
    OwnNameKept(mcp, name);
  }

  /** A collision can leave a tool without a name. */
  lemma NameLost(name: Name)
    requires |name| == MAX_NAME && AllTrimmable(name)
    ensures Prefixed([], name) == []
  {
    var mcp: Name := [0x6D, 0x63, 0x70];
    assert Sanitized([]) == [];
    EmptyNameExactly([], name);
    assert (mcp + [UNDERSCORE] + name)[4..] == name;
  }
}
