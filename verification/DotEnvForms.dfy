/** What .env files look like to the program: which lines set what, which setting wins, and what an update does to
    the lines of a file. */
module DotEnvForms {
  import opened Basics
  import opened DotEnv

  // One line

  /** Spaces aside, the line is key=value: the key without an equals sign and not a comment, both sides not
      empty and free of zero characters. */
  predicate Sets(key: string, value: string) {
    && key != "" && value != "" && NoSpaceAround(key) && NoSpaceAround(value)
    && key[0] != '#' && '=' !in key && '\0' !in key && '\0' !in value
  }

  ghost predicate LineSets(line: string, key: string, value: string) {
    && Sets(key, value)
    && exists a, b, c, d ::
         AllSpaces(a) && AllSpaces(b) && AllSpaces(c) && AllSpaces(d) && line == Spaced(a, key, b, c, value, d)
  }

  function Spaced(a: string, key: string, b: string, c: string, value: string, d: string): string {
    a + (key + b + "=" + (c + value)) + d
  }

  lemma NoEqualsInSpaces(s: string)
    requires AllSpaces(s)
    ensures '=' !in s
  {
  }

  lemma SpacedCut(key: string, b: string, rest: string)
    requires '=' !in key && AllSpaces(b)
    ensures var t := key + b + "=" + rest;
            IndexOf(t, '=') == |key + b| && t[..|key + b|] == key + b && t[|key + b| + 1..] == rest
  {
    NoEqualsInSpaces(b);
    CutAtKey(key + b, rest);
  }

  lemma TrimTail(x: string, d: string)
    requires NoSpaceAround(x) && AllSpaces(d)
    ensures TrimSpace(x + d) == x
  {
    TrimSpaceIs("", x, d);
    assert "" + x + d == x + d;
  }

  lemma TrimFront(a: string, x: string)
    requires NoSpaceAround(x) && AllSpaces(a)
    ensures TrimSpace(a + x) == x
  {
    TrimSpaceIs(a, x, "");
    assert a + x + "" == a + x;
  }

  lemma MiddleHasNoEdges(key: string, b: string, c: string, value: string)
    requires Sets(key, value)
    ensures NoSpaceAround(key + b + "=" + (c + value))
  {
    var t := key + b + "=" + (c + value);
    assert t[0] == key[0] && t[|t| - 1] == value[|value| - 1];
  }

  lemma SpacedLoads(a: string, key: string, b: string, c: string, value: string, d: string)
    requires Sets(key, value) && AllSpaces(a) && AllSpaces(b) && AllSpaces(c) && AllSpaces(d)
    ensures Loaded(Spaced(a, key, b, c, value, d)) == Some(Setting(key, value))
  {
    var t := key + b + "=" + (c + value);
    MiddleHasNoEdges(key, b, c, value);
    TrimSpaceIs(a, t, d);
    SpacedCut(key, b, c + value);
    TrimTail(key, b);
    TrimFront(c, value);
    assert t[0] == key[0];
  }

  lemma Edges(a: string, d: string)
    ensures a != "" ==> (a + d)[0] == a[0]
    ensures d != "" ==> (a + d)[|a + d| - 1] == d[|d| - 1]
  {
  }

  /** What trimming leaves of a text that starts without a space is its start. */
  lemma TrimmedStart(s: string) returns (b: string)
    requires TrimSpace(s) != "" && !IsSpace(s[0])
    ensures AllSpaces(b) && s == TrimSpace(s) + b && TrimSpace(s)[0] == s[0]
  {
    var a, d := TrimSpaceSplits(s);
    Edges(a, TrimSpace(s) + d);
    assert a + TrimSpace(s) + d == a + (TrimSpace(s) + d);
    b := d;
  }

  lemma TrimmedEnd(s: string) returns (c: string)
    requires TrimSpace(s) != "" && !IsSpace(s[|s| - 1])
    ensures AllSpaces(c) && s == c + TrimSpace(s)
  {
    var a, d := TrimSpaceSplits(s);
    Edges(a + TrimSpace(s), d);
    c := a;
  }

  lemma NotBlank(s: string)
    requires TrimSpace(s) != ""
    ensures s != ""
  {
  }

  lemma LoadedIsSpaced(line: string, s: Setting)
    requires Loaded(line) == Some(s)
    ensures LineSets(line, s.key, s.value)
  {
    var t := TrimSpace(line);
    var i := IndexOf(t, '=');
    var a, d := TrimSpaceSplits(line);
    var before, after := t[..i], t[i + 1..];
    NotBlank(before);
    NotBlank(after);
    var b := TrimmedStart(before);
    var c := TrimmedEnd(after);
    SpacedParts(line, t, i, a, s.key, b, c, s.value, d);
    var _, _ := TrimSpaceSplits(before);
    var _, _ := TrimSpaceSplits(after);
  }

  lemma SpacedParts(line: string, t: string, i: nat, a: string, key: string, b: string, c: string, value: string,
                    d: string)
    requires i < |t| && t[i] == '=' && line == a + t + d && t[..i] == key + b && t[i + 1..] == c + value
    ensures line == Spaced(a, key, b, c, value, d)
  {
    assert t == t[..i] + "=" + t[i + 1..];
  }

  /** A line of a .env file sets a key to a value exactly when, spaces aside, it says so. */
  lemma LoadedExactly(line: string, s: Setting)
    ensures Loaded(line) == Some(s) <==> LineSets(line, s.key, s.value)
  {
    if Loaded(line) == Some(s) {
      LoadedIsSpaced(line, s);
    }
    if LineSets(line, s.key, s.value) {
      var a, b, c, d :|
        && AllSpaces(a) && AllSpaces(b) && AllSpaces(c) && AllSpaces(d)
        && line == Spaced(a, s.key, b, c, s.value, d);
      SpacedLoads(a, s.key, b, c, s.value, d);
    }
  }

  // A file

  /** No line sets the key. */
  ghost predicate Unset(lines: seq<string>, key: string) {
    forall i, value | 0 <= i < |lines| :: !LineSets(lines[i], key, value)
  }

  /** Of the lines that set a key the last one counts; a key that none sets keeps what it had. */
  lemma {:induction false} LastLineCounts(env: Env, lines: seq<string>, key: string, value: string)
    ensures Unset(lines, key) ==>
              var after := LoadLines(env, lines);
              (key in after <==> key in env) && (key in env ==> after[key] == env[key])
    ensures (exists i :: 0 <= i < |lines| && LineSets(lines[i], key, value) && Unset(lines[i + 1..], key)) ==>
              key in LoadLines(env, lines) && LoadLines(env, lines)[key] == value
  {
    if lines != [] {
      var front, last := lines[..|lines| - 1], lines[|lines| - 1];
      LastLineCounts(env, front, key, value);
      if Loaded(last).Some? {
        LoadedExactly(last, Loaded(last).value);
      }
      LoadedExactly(last, Setting(key, value));
      if Unset(lines, key) {
        assert Unset(front, key);
        assert Loaded(last).Some? ==> Loaded(last).value.key != key;
      }
      if i :| 0 <= i < |lines| && LineSets(lines[i], key, value) && Unset(lines[i + 1..], key) {
        if i < |front| {
          UnsetFront(lines, i, key);
          assert lines[i + 1..][|lines| - 1 - (i + 1)] == last;
          assert Loaded(last).Some? ==> Loaded(last).value.key != key;
          assert front[i] == lines[i];
        }
      }
    }
  }

  lemma UnsetFront(lines: seq<string>, i: nat, key: string)
    requires i + 1 < |lines| && Unset(lines[i + 1..], key)
    ensures Unset(lines[..|lines| - 1][i + 1..], key)
  {
    var all, front := lines[i + 1..], lines[..|lines| - 1][i + 1..];
    assert front == all[..|all| - 1];
  }

  // An update

  function NotEmpty(lines: seq<string>): seq<string> {
    if lines == [] then []
    else NotEmpty(lines[..|lines| - 1]) + if lines[|lines| - 1] == "" then [] else [lines[|lines| - 1]]
  }

  /** The line that starts with the prefix is set to the value, any other stays. */
  function AllSet(lines: seq<string>, prefix: string, value: string): seq<string> {
    seq(|lines|, i requires 0 <= i < |lines| => if prefix <= lines[i] then prefix + value else lines[i])
  }

  lemma {:induction false} RewrittenWithoutKey(lines: seq<string>, prefix: string, value: string)
    requires forall k | 0 <= k < |lines| :: !(prefix <= lines[k])
    ensures !HasKey(lines, prefix) && Rewritten(lines, prefix, value) == NotEmpty(lines)
  {
    if lines != [] {
      RewrittenWithoutKey(lines[..|lines| - 1], prefix, value);
    }
  }

  /** From the first line with the prefix on, every line is kept or set; before it the empty ones go. */
  lemma {:induction false} RewrittenFromKey(lines: seq<string>, i: nat, prefix: string, value: string)
    requires i < |lines| && prefix <= lines[i] && forall k | 0 <= k < i :: !(prefix <= lines[k])
    ensures HasKey(lines, prefix)
    ensures Rewritten(lines, prefix, value) == NotEmpty(lines[..i]) + AllSet(lines[i..], prefix, value)
  {
    var front, last := lines[..|lines| - 1], lines[|lines| - 1];
    if i == |lines| - 1 {
      RewrittenWithoutKey(front, prefix, value);
      assert AllSet(lines[i..], prefix, value) == [prefix + value];
    } else {
      RewrittenFromKey(front, i, prefix, value);
      assert front[..i] == lines[..i];
      assert AllSet(lines[i..], prefix, value) ==
             AllSet(front[i..], prefix, value) + [if prefix <= last then prefix + value else last];
    }
  }

  /** The first line that starts with the prefix. */
  predicate FirstKey(lines: seq<string>, i: nat, prefix: string) {
    i < |lines| && prefix <= lines[i] && forall k | 0 <= k < i :: !(prefix <= lines[k])
  }

  lemma UpdatedWithKey(content: string, key: string, value: string, i: nat)
    requires FirstKey(Split(content), i, key + "=")
    ensures NewLines(content, key, value) ==
            NotEmpty(Split(content)[..i]) + AllSet(Split(content)[i..], key + "=", value)
  {
    RewrittenFromKey(Split(content), i, key + "=", value);
  }

  lemma UpdatedWithoutKey(content: string, key: string, value: string)
    requires forall k | 0 <= k < |Split(content)| :: !(key + "=" <= Split(content)[k])
    ensures NewLines(content, key, value) ==
            NotEmpty(Split(content))
            + ((if content != "" && content[|content| - 1] != '\n' then [""] else []) + [key + "=" + value])
  {
    var line := key + "=" + value;
    assert [""] + [line] == ["", line];
    assert [] + [line] == [line];
    RewrittenWithoutKey(Split(content), key + "=", value);
  }

  /** The lines of a file after an update: with the key at the start of some line, every such line is set, and
      the rest stays but for the empty lines before the first of them; without it no empty line stays, and the
      key comes last, behind an empty line if the file's last line had no end. */
  lemma UpdatedExactly(content: string, key: string, value: string)
    requires OneLine(key) && OneLine(value)
    ensures var lines, written := Split(content), NewLines(content, key, value);
            && Split(Updated(content, key, value)) == written + (if EndsLine(Join(written)) then [] else [""])
            && (forall i: nat | FirstKey(lines, i, key + "=") ::
                  written == NotEmpty(lines[..i]) + AllSet(lines[i..], key + "=", value))
            && ((forall k | 0 <= k < |lines| :: !(key + "=" <= lines[k])) ==>
                  written ==
                  NotEmpty(lines)
                  + ((if content != "" && content[|content| - 1] != '\n' then [""] else []) + [key + "=" + value]))
  {
    UpdatedLines(content, key, value);
    forall i: nat | FirstKey(Split(content), i, key + "=")
      ensures NewLines(content, key, value) ==
              NotEmpty(Split(content)[..i]) + AllSet(Split(content)[i..], key + "=", value)
    {
      UpdatedWithKey(content, key, value, i);
    }
    if forall k | 0 <= k < |Split(content)| :: !(key + "=" <= Split(content)[k]) {
      UpdatedWithoutKey(content, key, value);
    }
  }
}
