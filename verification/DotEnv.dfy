/** Writing one variable into a .env file, and loading such files into the environment. */
module DotEnv {
  import opened Basics

  type Env = map<string, string>

  // Lines

  /** strings.Split(s, "\n") */
  function Split(s: string): (lines: seq<string>)
    ensures lines != []
  {
    if s == "" then
      [""]
    else
      var lines := Split(s[..|s| - 1]);
      if s[|s| - 1] == '\n' then lines + [""]
      else lines[..|lines| - 1] + [lines[|lines| - 1] + [s[|s| - 1]]]
  }

  /** strings.Join(lines, "\n") */
  function Join(lines: seq<string>): string {
    if lines == [] then ""
    else if |lines| == 1 then lines[0]
    else Join(lines[..|lines| - 1]) + "\n" + lines[|lines| - 1]
  }

  predicate HasPrefix(s: string, prefix: string) {
    prefix <= s
  }

  predicate EndsLine(s: string) {
    s != "" && s[|s| - 1] == '\n'
  }

  predicate OneLine(s: string) {
    '\n' !in s
  }

  lemma {:induction false} SplitLines(s: string)
    ensures Join(Split(s)) == s
    ensures forall l | l in Split(s) :: OneLine(l)
  {
    if s != "" {
      var front, last := s[..|s| - 1], s[|s| - 1];
      SplitLines(front);
      var lines := Split(front);
      var n := |lines| - 1;
      if last == '\n' {
        assert Split(s)[..n + 1] == lines;
      } else {
        assert Split(s)[..n] == lines[..n];
        assert lines[n] in lines;
        assert forall l | l in lines[..n] :: l in lines;
        assert s == front + [last];
        if n > 0 {
          assert Join(Split(s)) == Join(lines[..n]) + "\n" + (lines[n] + [last]);
        }
      }
    }
  }

  lemma {:induction false} SplitOneMore(s: string, t: string)
    requires OneLine(t)
    ensures Split(s + "\n" + t) == Split(s) + [t]
  {
    if t == "" {
      assert (s + "\n" + t)[..|s|] == s;
    } else {
      var front := t[..|t| - 1];
      SplitOneMore(s, front);
      assert (s + "\n" + t)[..|s| + |t|] == s + "\n" + front;
      assert front + [t[|t| - 1]] == t;
    }
  }

  lemma {:induction false} SplitOne(t: string)
    requires OneLine(t)
    ensures Split(t) == [t]
  {
    if t != "" {
      SplitOne(t[..|t| - 1]);
      assert t[..|t| - 1] + [t[|t| - 1]] == t;
    }
  }

  lemma {:induction false} SplitJoin(lines: seq<string>)
    requires lines != [] && forall l | l in lines :: OneLine(l)
    ensures Split(Join(lines)) == lines
  {
    if |lines| == 1 {
      SplitOne(lines[0]);
    } else {
      var front := lines[..|lines| - 1];
      SplitJoin(front);
      SplitOneMore(Join(front), lines[|lines| - 1]);
      assert front + [lines[|lines| - 1]] == lines;
    }
  }

  // Writing a variable

  /** Some line sets the key literally, with nothing before it. */
  predicate HasKey(lines: seq<string>, prefix: string) {
    lines != [] && (HasPrefix(lines[|lines| - 1], prefix) || HasKey(lines[..|lines| - 1], prefix))
  }

  /** The lines with the key's own replaced, and the empty ones before the first of them dropped. */
  function Rewritten(lines: seq<string>, prefix: string, value: string): seq<string> {
    if lines == [] then
      []
    else
      var front, last := lines[..|lines| - 1], lines[|lines| - 1];
      Rewritten(front, prefix, value) +
      if HasPrefix(last, prefix) then [prefix + value]
      else if last != "" || HasKey(front, prefix) then [last]
      else []
  }

  function NewLines(content: string, key: string, value: string): seq<string> {
    var prefix := key + "=";
    Rewritten(Split(content), prefix, value) +
    if HasKey(Split(content), prefix) then []
    else if content != "" && !EndsLine(content) then ["", prefix + value]
    else [prefix + value]
  }

  function WithNewline(s: string): string {
    if EndsLine(s) then s else s + "\n"
  }

  function Updated(content: string, key: string, value: string): string {
    WithNewline(Join(NewLines(content, key, value)))
  }

  method UpdateEnvVar(content: string, key: string, value: string) returns (result: string)
    ensures result == Updated(content, key, value)
  {
    var prefix := key + "=";
    var lines := [];
    var found := false;
    var all := Split(content);
    var i := 0;
    while i < |all|
      invariant 0 <= i <= |all|
      invariant lines == Rewritten(all[..i], prefix, value) && found == HasKey(all[..i], prefix)
    {
      assert all[..i + 1][..i] == all[..i];
      if HasPrefix(all[i], prefix) {
        lines := lines + [prefix + value];
        found := true;
      } else if all[i] != "" || found {
        lines := lines + [all[i]];
      }
      i := i + 1;
    }
    assert all[..i] == all;
    if !found {
      if content != "" && !EndsLine(content) {
        lines := lines + [""];
      }
      lines := lines + [prefix + value];
    }
    assert lines == NewLines(content, key, value);
    result := Join(lines);
    if !EndsLine(result) {
      result := result + "\n";
    }
  }

  // Loading

  function IndexOf(s: string, c: char): (i: nat)
    ensures i <= |s| && (i < |s| ==> s[i] == c) && forall j | 0 <= j < i :: s[j] != c
  {
    if s == "" || s[0] == c then 0 else 1 + IndexOf(s[1..], c)
  }

  datatype Setting = Setting(key: string, value: string)

  /** os.Setenv refuses an empty key, and a zero character anywhere. */
  predicate Settable(s: Setting) {
    s.key != "" && '=' !in s.key && '\0' !in s.key && '\0' !in s.value
  }

  /** What one line of a .env file sets. */
  function Loaded(line: string): Option<Setting> {
    var t := TrimSpace(line);
    if t == "" || t[0] == '#' then None
    else if IndexOf(t, '=') == |t| then None
    else
      var s := Setting(TrimSpace(t[..IndexOf(t, '=')]), TrimSpace(t[IndexOf(t, '=') + 1..]));
      if s.value == "" || !Settable(s) then None else Some(s)
  }

  function SetBy(env: Env, s: Option<Setting>): Env {
    if s.None? then env else env[s.value.key := s.value.value]
  }

  function LoadLines(env: Env, lines: seq<string>): Env {
    if lines == [] then env else SetBy(LoadLines(env, lines[..|lines| - 1]), Loaded(lines[|lines| - 1]))
  }

  function Load(env: Env, content: string): Env {
    LoadLines(env, Split(content))
  }

  class Process {
    var vars: Env

    constructor (vars: Env)
      ensures this.vars == vars
    {
      this.vars := vars;
    }

    method Setenv(s: Setting)
      modifies this
      ensures vars == if Settable(s) then old(vars)[s.key := s.value] else old(vars)
    {
      if Settable(s) {
        vars := vars[s.key := s.value];
      }
    }

    /** A file that cannot be read is passed over. */
    method LoadDotEnvFile(file: Option<string>)
      modifies this
      ensures vars == if file.None? then old(vars) else Load(old(vars), file.value)
    {
      if file.None? {
        return;
      }
      var lines := Split(file.value);
      var i := 0;
      while i < |lines|
        invariant 0 <= i <= |lines| && vars == LoadLines(old(vars), lines[..i])
      {
        assert lines[..i + 1][..i] == lines[..i];
        var line := TrimSpace(lines[i]);
        i := i + 1;
        if line == "" || line[0] == '#' {
          continue;
        }
        var cut := IndexOf(line, '=');
        if cut == |line| {
          continue;
        }
        var key, val := TrimSpace(line[..cut]), TrimSpace(line[cut + 1..]);
        if val == "" {
          continue;
        }
        Setenv(Setting(key, val));
      }
      assert lines[..i] == lines;
    }
  }

  // What a line written for a key loads as.

  /** Non-empty, with no space at either end. */
  predicate Tight(s: string) {
    s != "" && !IsSpace(s[0]) && !IsSpace(s[|s| - 1])
  }

  predicate CleanKey(key: string) {
    Tight(key) && key[0] != '#' && '=' !in key && '\0' !in key && OneLine(key)
  }

  predicate CleanValue(value: string) {
    Tight(value) && '\0' !in value && OneLine(value)
  }

  lemma {:induction false} TrimStartEnds(s: string)
    ensures TrimStart(s) == "" || !IsSpace(TrimStart(s)[0])
    ensures |TrimStart(s)| <= |s| && s[|s| - |TrimStart(s)|..] == TrimStart(s)
  {
    if s != "" && IsSpace(s[0]) {
      TrimStartEnds(s[1..]);
    }
  }

  lemma {:induction false} TrimEndEnds(s: string)
    ensures TrimEnd(s) <= s
    ensures TrimEnd(s) == "" || !IsSpace(TrimEnd(s)[|TrimEnd(s)| - 1])
  {
    if s != "" && IsSpace(s[|s| - 1]) {
      TrimEndEnds(s[..|s| - 1]);
    }
  }

  /** Trimming changes nothing exactly when there is no space at either end. */
  lemma TrimSpaceFixed(s: string)
    ensures TrimSpace(s) == "" || Tight(TrimSpace(s))
    ensures TrimSpace(s) == s <==> s == "" || Tight(s)
  {
    TrimStartEnds(s);
    TrimEndEnds(TrimStart(s));
  }

  lemma {:induction false} TrimEndConcat(a: string, b: string)
    requires a != "" && !IsSpace(a[|a| - 1])
    ensures TrimEnd(a + b) == a + TrimEnd(b)
  {
    if b == "" {
      assert a + b == a;
    } else if IsSpace(b[|b| - 1]) {
      assert (a + b)[..|a + b| - 1] == a + b[..|b| - 1];
      TrimEndConcat(a, b[..|b| - 1]);
    }
  }

  lemma CutAtKey(key: string, rest: string)
    requires '=' !in key
    ensures var t := key + "=" + rest;
            IndexOf(t, '=') == |key| && t[..|key|] == key && t[|key| + 1..] == rest
  {
    var t := key + "=" + rest;
    assert t[|key|] == '=';
    assert forall j | 0 <= j < |key| :: t[j] == key[j];
  }

  /** A line that starts with KEY= sets that key or nothing. */
  lemma LiteralSets(key: string, rest: string)
    requires CleanKey(key)
    ensures Loaded(key + "=" + rest) ==
            var s := Setting(key, TrimSpace(TrimEnd(rest)));
            if s.value == "" || !Settable(s) then None else Some(s)
  {
    var line := key + "=" + rest;
    assert line == (key + "=") + rest;
    TrimEndConcat(key + "=", rest);
    assert TrimStart(line) == line;
    CutAtKey(key, TrimEnd(rest));
    TrimSpaceFixed(key);
  }

  /** The line written for a key and a one-line value loads as just that exactly when both are clean. */
  lemma WrittenLoads(key: string, value: string)
    requires OneLine(key) && OneLine(value)
    ensures Loaded(key + "=" + value) == Some(Setting(key, value)) <==> CleanKey(key) && CleanValue(value)
  {
    var line := key + "=" + value;
    TrimSpaceFixed(key);
    TrimSpaceFixed(value);
    if CleanKey(key) && CleanValue(value) {
      LiteralSets(key, value);
      assert TrimEnd(value) == value;
    }
    if Loaded(line) == Some(Setting(key, value)) {
      var t := TrimSpace(line);
      TrimSpaceFixed(t[..IndexOf(t, '=')]);
      TrimSpaceFixed(t[IndexOf(t, '=') + 1..]);
      assert TrimStart(line) == line;
      TrimEndEnds(line);
    }
  }

  // The round trip

  /** What the lines after the last literal one load the key as, if any of them sets it. */
  function Override(lines: seq<string>, key: string): Option<string> {
    if lines == [] || HasPrefix(lines[|lines| - 1], key + "=") then
      None
    else
      var s := Loaded(lines[|lines| - 1]);
      if s.Some? && s.value.key == key then Some(s.value.value)
      else Override(lines[..|lines| - 1], key)
  }

  lemma LiteralSetsOnly(key: string, line: string)
    requires CleanKey(key) && HasPrefix(line, key + "=")
    ensures Loaded(line).Some? ==> Loaded(line).value.key == key
  {
    var p := key + "=";
    assert line == p + line[|p|..];
    LiteralSets(key, line[|p|..]);
  }

  lemma EmptyLoadsNothing()
    ensures Loaded("").None?
  {
  }

  /** What loading lines with these settings of the key gives, once the key's own lines hold the value. */
  function Expected(before: Env, lines: seq<string>, key: string, value: string): Env {
    if !HasKey(lines, key + "=") then before
    else before[key := if Override(lines, key).Some? then Override(lines, key).value else value]
  }

  lemma LiteralStep(before: Env, lines: seq<string>, key: string, value: string, s: Option<Setting>)
    requires s.Some? ==> s.value.key == key
    ensures SetBy(Expected(before, lines, key, value), Some(Setting(key, value))) == SetBy(before, s)[key := value]
  {
  }

  lemma OtherStep(before: Env, x: string, key: string, s: Option<Setting>)
    ensures SetBy(before[key := x], s) ==
            SetBy(before, s)[key := if s.Some? && s.value.key == key then s.value.value else x]
  {
  }

  lemma OverrideLast(lines: seq<string>, last: string, key: string)
    ensures HasPrefix(last, key + "=") ==> Override(lines + [last], key).None?
    ensures !HasPrefix(last, key + "=") ==>
              var s := Loaded(last);
              Override(lines + [last], key) ==
              if s.Some? && s.value.key == key then Some(s.value.value) else Override(lines, key)
    ensures HasKey(lines + [last], key + "=") <==> HasPrefix(last, key + "=") || HasKey(lines, key + "=")
  {
    assert (lines + [last])[..|lines|] == lines;
  }

  lemma RewrittenLast(lines: seq<string>, last: string, prefix: string, value: string)
    ensures Rewritten(lines + [last], prefix, value) ==
            Rewritten(lines, prefix, value) +
            if HasPrefix(last, prefix) then [prefix + value]
            else if last != "" || HasKey(lines, prefix) then [last]
            else []
  {
    assert (lines + [last])[..|lines|] == lines;
  }

  lemma ExpectedStep(before: Env, lines: seq<string>, last: string, key: string, value: string)
    requires CleanKey(key) && CleanValue(value)
    ensures Expected(SetBy(before, Loaded(last)), lines + [last], key, value) ==
            SetBy(Expected(before, lines, key, value),
                  Loaded(if HasPrefix(last, key + "=") then key + "=" + value else last))
  {
    OverrideLast(lines, last, key);
    if HasPrefix(last, key + "=") {
      WrittenLoads(key, value);
      LiteralSetsOnly(key, last);
      LiteralStep(before, lines, key, value, Loaded(last));
    } else if HasKey(lines, key + "=") {
      var o := Override(lines, key);
      OtherStep(before, if o.Some? then o.value else value, key, Loaded(last));
    }
  }

  lemma RewrittenLoadsLast(env: Env, lines: seq<string>, last: string, key: string, value: string)
    requires CleanKey(key) && CleanValue(value)
    requires LoadLines(env, Rewritten(lines, key + "=", value)) == Expected(LoadLines(env, lines), lines, key, value)
    ensures LoadLines(env, Rewritten(lines + [last], key + "=", value)) ==
            Expected(LoadLines(env, lines + [last]), lines + [last], key, value)
  {
    var written := Rewritten(lines, key + "=", value);
    RewrittenLast(lines, last, key + "=", value);
    ExpectedStep(LoadLines(env, lines), lines, last, key, value);
    LoadOneMore(env, lines, last);
    if HasPrefix(last, key + "=") {
      LoadOneMore(env, written, key + "=" + value);
    } else if last != "" || HasKey(lines, key + "=") {
      LoadOneMore(env, written, last);
    } else {
      assert written + [] == written;
      EmptyLoadsNothing();
    }
  }

  lemma {:induction false} RewrittenLoads(env: Env, lines: seq<string>, key: string, value: string)
    requires CleanKey(key) && CleanValue(value)
    ensures LoadLines(env, Rewritten(lines, key + "=", value)) == Expected(LoadLines(env, lines), lines, key, value)
  {
    if lines != [] {
      var front, last := lines[..|lines| - 1], lines[|lines| - 1];
      assert lines == front + [last];
      RewrittenLoads(env, front, key, value);
      RewrittenLoadsLast(env, front, last, key, value);
    }
  }

  lemma LoadOneMore(env: Env, lines: seq<string>, line: string)
    ensures LoadLines(env, lines + [line]) == SetBy(LoadLines(env, lines), Loaded(line))
  {
    assert (lines + [line])[..|lines|] == lines;
  }

  lemma {:induction false} RewrittenOneLine(lines: seq<string>, prefix: string, value: string)
    requires OneLine(prefix) && OneLine(value) && forall l | l in lines :: OneLine(l)
    ensures forall l | l in Rewritten(lines, prefix, value) :: OneLine(l)
  {
    if lines != [] {
      var front := lines[..|lines| - 1];
      assert forall l | l in front :: l in lines;
      RewrittenOneLine(front, prefix, value);
      assert lines[|lines| - 1] in lines;
    }
  }

  lemma {:induction false} HasKeyRewritten(lines: seq<string>, prefix: string, value: string)
    ensures HasKey(Rewritten(lines, prefix, value), prefix) <==> HasKey(lines, prefix)
  {
    if lines != [] {
      var front, last := lines[..|lines| - 1], lines[|lines| - 1];
      HasKeyRewritten(front, prefix, value);
      var written := Rewritten(front, prefix, value);
      if Rewritten(lines, prefix, value) != written {
        assert Rewritten(lines, prefix, value)[..|written|] == written;
      }
    }
  }

  lemma NewLinesAreLines(content: string, key: string, value: string)
    requires OneLine(key) && OneLine(value)
    ensures NewLines(content, key, value) != []
    ensures forall l | l in NewLines(content, key, value) :: OneLine(l)
  {
    SplitLines(content);
    RewrittenOneLine(Split(content), key + "=", value);
    HasKeyRewritten(Split(content), key + "=", value);
  }

  /** Reading the updated text back line by line gives the lines written, and at most one empty one more. */
  lemma UpdatedLines(content: string, key: string, value: string)
    requires OneLine(key) && OneLine(value)
    ensures var lines := NewLines(content, key, value);
            && lines != []
            && Split(Updated(content, key, value)) ==
               lines + if EndsLine(Join(lines)) then [] else [""]
  {
    NewLinesAreLines(content, key, value);
    SplitWithNewline(NewLines(content, key, value));
  }

  lemma SplitWithNewline(lines: seq<string>)
    requires lines != [] && forall l | l in lines :: OneLine(l)
    ensures Split(WithNewline(Join(lines))) == lines + if EndsLine(Join(lines)) then [] else [""]
  {
    SplitJoin(lines);
    SplitOneMore(Join(lines), "");
    assert Join(lines) + "\n" + "" == Join(lines) + "\n";
    assert lines + [] == lines;
  }

  /** Loading the updated text gives what loading the old text gave, with the key set to the value and
      nothing else changed, exactly when no line after the last literal KEY= line sets the key, in another
      spelling, to something else. */
  lemma RoundTripExactly(env: Env, content: string, key: string, value: string)
    requires CleanKey(key) && CleanValue(value)
    ensures Load(env, Updated(content, key, value)) == Load(env, content)[key := value] <==>
            || !HasKey(Split(content), key + "=")
            || Override(Split(content), key) in {None, Some(value)}
    ensures forall k | k != key ::
              && (k in Load(env, Updated(content, key, value)) <==> k in Load(env, content))
              && (k in Load(env, content) ==>
                    Load(env, Updated(content, key, value))[k] == Load(env, content)[k])
  {
    UpdatedLoads(env, content, key, value);
    NewLinesLoad(env, content, key, value);
    ExpectedExactly(Load(env, content), Split(content), key, value);
  }

  lemma ExpectedExactly(before: Env, lines: seq<string>, key: string, value: string)
    ensures var after := Expected(before, lines, key, value);
            && (HasKey(lines, key + "=") ==>
                  (after == before[key := value] <==> Override(lines, key) in {None, Some(value)}))
            && forall k | k != key :: (k in after <==> k in before) && (k in before ==> after[k] == before[k])
  {
    if HasKey(lines, key + "=") && Override(lines, key).Some? {
      assert Expected(before, lines, key, value)[key] == Override(lines, key).value;
      assert before[key := value][key] == value;
    }
  }

  lemma UpdatedLoads(env: Env, content: string, key: string, value: string)
    requires OneLine(key) && OneLine(value)
    ensures Load(env, Updated(content, key, value)) == LoadLines(env, NewLines(content, key, value))
  {
    var lines := NewLines(content, key, value);
    UpdatedLines(content, key, value);
    LoadOneMore(env, lines, "");
    EmptyLoadsNothing();
    assert lines + [] == lines;
  }

  lemma NewLinesLoad(env: Env, content: string, key: string, value: string)
    requires CleanKey(key) && CleanValue(value)
    ensures var lines := Split(content);
            LoadLines(env, NewLines(content, key, value)) ==
            if HasKey(lines, key + "=") then Expected(Load(env, content), lines, key, value)
            else Load(env, content)[key := value]
  {
    var written := Rewritten(Split(content), key + "=", value);
    RewrittenLoads(env, Split(content), key, value);
    if HasKey(Split(content), key + "=") {
      assert written + [] == written;
    } else {
      AppendedLoads(env, written, key, value);
    }
  }

  lemma AppendedLoads(env: Env, lines: seq<string>, key: string, value: string)
    requires CleanKey(key) && CleanValue(value)
    ensures LoadLines(env, lines + [key + "=" + value]) == LoadLines(env, lines)[key := value]
    ensures LoadLines(env, lines + ["", key + "=" + value]) == LoadLines(env, lines)[key := value]
  {
    var line := key + "=" + value;
    WrittenLoads(key, value);
    EmptyLoadsNothing();
    LoadOneMore(env, lines, "");
    LoadOneMore(env, lines + [""], line);
    LoadOneMore(env, lines, line);
    assert lines + [""] + [line] == lines + ["", line];
  }

  // Writing the same again

  /** No empty line comes before the first literal one. */
  predicate Compact(lines: seq<string>, prefix: string) {
    lines != [] ==>
      var front, last := lines[..|lines| - 1], lines[|lines| - 1];
      Compact(front, prefix) && (last == "" ==> HasKey(front, prefix))
  }

  predicate SetTo(lines: seq<string>, prefix: string, value: string) {
    forall l | l in lines :: HasPrefix(l, prefix) ==> l == prefix + value
  }

  /** Rewriting lines changes nothing exactly when they are compact and hold the value already. */
  lemma {:induction false} RewrittenFixed(lines: seq<string>, prefix: string, value: string)
    requires prefix != ""
    ensures Rewritten(lines, prefix, value) == lines <==> Compact(lines, prefix) && SetTo(lines, prefix, value)
    ensures |Rewritten(lines, prefix, value)| <= |lines|
  {
    if lines != [] {
      var front, last := lines[..|lines| - 1], lines[|lines| - 1];
      RewrittenFixed(front, prefix, value);
      assert lines == front + [last];
      assert SetTo(lines, prefix, value) <==>
             SetTo(front, prefix, value) && (HasPrefix(last, prefix) ==> last == prefix + value);
    }
  }

  lemma {:induction false} RewrittenIsFixed(lines: seq<string>, prefix: string, value: string)
    requires prefix != ""
    ensures Compact(Rewritten(lines, prefix, value), prefix)
    ensures SetTo(Rewritten(lines, prefix, value), prefix, value)
  {
    if lines != [] {
      var front, last := lines[..|lines| - 1], lines[|lines| - 1];
      RewrittenIsFixed(front, prefix, value);
      HasKeyRewritten(front, prefix, value);
      var written, all := Rewritten(front, prefix, value), Rewritten(lines, prefix, value);
      if all != written {
        assert all[..|written|] == written;
      }
    }
  }

  lemma HasKeyLast(lines: seq<string>, line: string, prefix: string)
    ensures HasKey(lines + [line], prefix) <==> HasPrefix(line, prefix) || HasKey(lines, prefix)
    ensures Compact(lines + [line], prefix) <==> Compact(lines, prefix) && (line == "" ==> HasKey(lines, prefix))
  {
    assert (lines + [line])[..|lines|] == lines;
  }

  lemma EndsLineExactly(lines: seq<string>)
    requires lines != [] && forall l | l in lines :: OneLine(l)
    ensures EndsLine(Join(lines)) <==> |lines| > 1 && lines[|lines| - 1] == ""
  {
    assert lines[|lines| - 1] in lines;
  }

  lemma NewLinesHold(content: string, key: string, value: string)
    ensures var lines := NewLines(content, key, value);
            && HasKey(lines, key + "=") && SetTo(lines, key + "=", value)
            && (Compact(lines, key + "=") <==> HasKey(Split(content), key + "=") || content == "" || EndsLine(content))
  {
    var prefix := key + "=";
    var written := Rewritten(Split(content), prefix, value);
    RewrittenIsFixed(Split(content), prefix, value);
    HasKeyRewritten(Split(content), prefix, value);
    if HasKey(Split(content), prefix) {
      assert written + [] == written;
    } else {
      HasKeyLast(written, "", prefix);
      HasKeyLast(written, prefix + value, prefix);
      HasKeyLast(written + [""], prefix + value, prefix);
      assert written + [""] + [prefix + value] == written + ["", prefix + value];
    }
  }

  /** An empty line at the end makes no difference. */
  lemma EmptyLast(lines: seq<string>, prefix: string, value: string)
    requires prefix != "" && HasKey(lines, prefix) && SetTo(lines, prefix, value)
    ensures HasKey(lines + [""], prefix) && SetTo(lines + [""], prefix, value)
    ensures Compact(lines + [""], prefix) <==> Compact(lines, prefix)
  {
    HasKeyLast(lines, "", prefix);
  }

  lemma UpdatedEndsLine(content: string, key: string, value: string)
    ensures EndsLine(Updated(content, key, value))
  {
  }

  lemma UpdatedHolds(content: string, key: string, value: string)
    requires OneLine(key) && OneLine(value)
    ensures var lines := Split(Updated(content, key, value));
            && HasKey(lines, key + "=") && SetTo(lines, key + "=", value)
            && (Compact(lines, key + "=") <==> HasKey(Split(content), key + "=") || content == "" || EndsLine(content))
  {
    var lines := NewLines(content, key, value);
    UpdatedLines(content, key, value);
    NewLinesHold(content, key, value);
    EmptyLast(lines, key + "=", value);
    assert lines + [] == lines;
  }

  /** Writing a variable leaves a text as it is exactly when the text ends its last line, has the key, has
      it at the value everywhere, and has no empty line before it. */
  lemma UpdateFixedExactly(content: string, key: string, value: string)
    requires OneLine(key) && OneLine(value)
    ensures Updated(content, key, value) == content <==>
            && EndsLine(content)
            && HasKey(Split(content), key + "=")
            && Compact(Split(content), key + "=")
            && SetTo(Split(content), key + "=", value)
  {
    UpdatedEndsLine(content, key, value);
    UpdatedHolds(content, key, value);
    if EndsLine(content) && HasKey(Split(content), key + "=") {
      UpdateInPlace(content, key, value);
      RewrittenFixed(Split(content), key + "=", value);
    }
  }

  /** With the key there and the last line ended, the update rewrites the lines and adds none. */
  lemma UpdateInPlace(content: string, key: string, value: string)
    requires OneLine(key) && OneLine(value)
    requires EndsLine(content) && HasKey(Split(content), key + "=")
    ensures Updated(content, key, value) == content <==>
            Rewritten(Split(content), key + "=", value) == Split(content)
  {
    var lines := Split(content);
    var written := Rewritten(lines, key + "=", value);
    SplitLines(content);
    assert NewLines(content, key, value) == written + [] == written;
    UpdatedLines(content, key, value);
    RewrittenOneLine(lines, key + "=", value);
    EndsLineExactly(lines);
    EndsLineExactly(written);
    RewrittenEndsEmpty(lines, key + "=", value);
  }

  lemma RewrittenEndsEmpty(lines: seq<string>, prefix: string, value: string)
    requires prefix != "" && HasKey(lines, prefix) && |lines| > 1 && lines[|lines| - 1] == ""
    ensures var written := Rewritten(lines, prefix, value);
            |written| > 1 && written[|written| - 1] == ""
  {
    HasKeyRewritten(lines[..|lines| - 1], prefix, value);
  }

  /** Writing the same variable three times gives what writing it twice gives; once is enough exactly when
      the text had the key, was empty, or ended its last line. */
  lemma WritingSettles(content: string, key: string, value: string)
    requires OneLine(key) && OneLine(value)
    ensures var once := Updated(content, key, value);
            var twice := Updated(once, key, value);
            && Updated(twice, key, value) == twice
            && (twice == once <==> HasKey(Split(content), key + "=") || content == "" || EndsLine(content))
  {
    var once := Updated(content, key, value);
    var twice := Updated(once, key, value);
    UpdatedHolds(content, key, value);
    UpdatedHolds(once, key, value);
    UpdatedEndsLine(content, key, value);
    UpdatedEndsLine(once, key, value);
    UpdateFixedExactly(once, key, value);
    UpdateFixedExactly(twice, key, value);
  }

  // The failures happen.

  /** A key with a space behind it, which loading trims away. */
  function OtherSpelling(key: string, value: string): string {
    (key + " ") + "=" + value
  }

  lemma OtherSpellingLoads(key: string, value: string)
    requires CleanKey(key) && CleanValue(value)
    ensures Loaded(OtherSpelling(key, value)) == Some(Setting(key, value))
    ensures !HasPrefix(OtherSpelling(key, value), key + "=") && OneLine(OtherSpelling(key, value))
  {
    var line := OtherSpelling(key, value);
    CutAtKey(key + " ", value);
    TrimSpaceFixed(line);
    TrimSpaceFixed(value);
    TrimEndConcat(key, " ");
    assert TrimStart(key + " ") == key + " ";
    assert line[|key|] == ' ' && (key + "=")[|key|] == '=';
  }

  lemma OverrideOfTwo(literal: string, other: string, key: string, value: string)
    requires HasPrefix(literal, key + "=") && !HasPrefix(other, key + "=")
    requires Loaded(other) == Some(Setting(key, value))
    ensures HasKey([literal, other], key + "=") && Override([literal, other], key) == Some(value)
  {
    assert [literal, other] == [literal] + [other] && [] + [literal] == [literal];
    OverrideLast([literal], other, key);
    OverrideLast([], literal, key);
  }

  /** Below the literal line another spelling of the key wins over the value written. */
  lemma OtherSpellingWins(env: Env, key: string, first: string, stale: string, value: string)
    requires CleanKey(key) && OneLine(first) && CleanValue(stale) && CleanValue(value) && stale != value
    ensures var content := (key + "=" + first) + "\n" + OtherSpelling(key, stale);
            Load(env, Updated(content, key, value)) != Load(env, content)[key := value]
  {
    var literal, other := key + "=" + first, OtherSpelling(key, stale);
    OtherSpellingLoads(key, stale);
    SplitOne(literal);
    SplitOneMore(literal, other);
    assert [literal] + [other] == [literal, other];
    OverrideOfTwo(literal, other, key, stale);
    RoundTripExactly(env, literal + "\n" + other, key, value);
  }

  /** Any one line without a newline at its end, and not of the key, changes again the second time. */
  lemma SettlesLate(content: string, key: string, value: string)
    requires content != "" && OneLine(content) && !HasPrefix(content, key + "=")
    requires OneLine(key) && OneLine(value)
    ensures var once := Updated(content, key, value); Updated(once, key, value) != once
  {
    SplitOne(content);
    assert [content][..0] == [];
    assert !HasKey(Split(content), key + "=");
    WritingSettles(content, key, value);
  }
}
