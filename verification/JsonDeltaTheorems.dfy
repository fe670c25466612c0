/** What grouping and deduplication promise of the JSON event stream. */
module JsonDeltaTheorems {
  import opened Basics
  import opened StreamDedup
  import opened Utf8
  import opened JsonDelta

  // Grouped output says what raw output says.

  /** The stream byte by byte, each byte with its event type and agent; tool events as markers. */
  datatype Item = Byte(kind: Kind, agent: string, b: byte) | Marker(event: JsonEvent)

  function Tagged(kind: Kind, agent: string, s: Bytes): seq<Item> {
    seq(|s|, i requires 0 <= i < |s| => Byte(kind, agent, s[i]))
  }

  function ItemsOf(ev: JsonEvent): seq<Item> {
    match ev
    case Delta(kind, agent, s) => Tagged(kind, agent, s)
    case _ => [Marker(ev)]
  }

  function Flatten(out: seq<JsonEvent>): seq<Item> {
    if out == [] then [] else Flatten(out[..|out| - 1]) + ItemsOf(out[|out| - 1])
  }

  /** What an operation says, however it is grouped. */
  function Meaning(op: Op): seq<Item> {
    match op
    case Text(kind, agent, s) => Tagged(kind, agent, s)
    case Call(agent, call) => [Marker(ToolCallEvent(agent, call))]
    case Result(agent, response) => [Marker(ToolResultEvent(agent, response))]
  }

  function MeaningAll(ops: seq<Op>): seq<Item> {
    if ops == [] then [] else MeaningAll(ops[..|ops| - 1]) + Meaning(ops[|ops| - 1])
  }

  /** What an emitter has said, counting what it still holds. */
  function Said(e: Emitter): seq<Item> {
    Flatten(e.out) + Tagged(e.kind, e.agent, e.buf)
  }

  lemma FlattenGrows(out: seq<JsonEvent>, ev: JsonEvent)
    ensures Flatten(out + [ev]) == Flatten(out) + ItemsOf(ev)
  {
    assert (out + [ev])[..|out + [ev]| - 1] == out;
  }

  /** Emitting part of the buffer says nothing new. */
  lemma FlushAtSaid(e: Emitter, n: nat)
    requires n <= |e.buf|
    ensures Said(FlushAt(e, n)) == Said(e)
  {
    var first, rest := Tagged(e.kind, e.agent, e.buf[..n]), Tagged(e.kind, e.agent, e.buf[n..]);
    FlattenGrows(e.out, Delta(e.kind, e.agent, e.buf[..n]));
    assert Tagged(e.kind, e.agent, e.buf) == first + rest;
    ConcatThree(Flatten(e.out), first, rest);
  }

  lemma FlushSaid(e: Emitter)
    ensures Said(Flush(e)) == Said(e) && Flush(e).buf == []
    ensures Said(e) == Flatten(Flush(e).out)
  {
    if e.buf != [] {
      FlushAtSaid(e, |e.buf|);
    }
    assert Tagged(Flush(e).kind, Flush(e).agent, []) == [];
  }

  lemma AppendSaid(e: Emitter, s: Bytes)
    ensures Said(e.(buf := e.buf + s)) == Said(e) + Tagged(e.kind, e.agent, s)
  {
    assert Tagged(e.kind, e.agent, e.buf + s) == Tagged(e.kind, e.agent, e.buf) + Tagged(e.kind, e.agent, s);
  }

  lemma SwitchSaid(e: Emitter, kind: Kind, agent: string)
    requires e.buf == []
    ensures Said(e.(kind := kind, agent := agent)) == Said(e)
  {
    assert Tagged(kind, agent, []) == Tagged(e.kind, e.agent, []);
  }

  lemma JoinedSaid(e: Emitter, kind: Kind, agent: string, s: Bytes)
    ensures Said(Joined(e, kind, agent, s)) == Said(e) + Tagged(kind, agent, s)
  {
    if e.kind != kind || e.agent != agent {
      FlushSaid(e);
      SwitchSaid(Flush(e), kind, agent);
      AppendSaid(Flush(e).(kind := kind, agent := agent), s);
    } else {
      AppendSaid(e, s);
    }
  }

  lemma TextSaid(e: Emitter, kind: Kind, agent: string, s: Bytes)
    requires e.raw ==> e.buf == []
    ensures Said(TextDone(e, kind, agent, s)) == Said(e) + Tagged(kind, agent, s)
  {
    if e.raw {
      FlattenGrows(e.out, Delta(kind, agent, s));
      NothingHeld(e);
      NothingHeld(TextDone(e, kind, agent, s));
    } else {
      JoinedSaid(e, kind, agent, s);
      var f := Joined(e, kind, agent, s);
      FlushAtSaid(f, BreakIndex(f.buf));
    }
  }

  lemma NothingHeld(e: Emitter)
    requires e.buf == []
    ensures Said(e) == Flatten(e.out)
  {
    assert Tagged(e.kind, e.agent, []) == [];
  }

  lemma ToolSaid(e: Emitter, ev: JsonEvent)
    requires !ev.Delta?
    ensures Said(Flush(e).(out := Flush(e).out + [ev])) == Said(e) + [Marker(ev)]
  {
    FlushSaid(e);
    FlattenGrows(Flush(e).out, ev);
    NothingHeld(Flush(e).(out := Flush(e).out + [ev]));
  }

  /** Every operation adds its meaning, exactly and at the end. */
  lemma DoSaid(e: Emitter, op: Op)
    requires e.raw ==> e.buf == []
    ensures Said(Do(e, op)) == Said(e) + Meaning(op)
    ensures Do(e, op).raw == e.raw && (e.raw ==> Do(e, op).buf == [])
  {
    match op
    case Text(kind, agent, s) => TextSaid(e, kind, agent, s);
    case Call(agent, call) => ToolSaid(e, ToolCallEvent(agent, call));
    case Result(agent, response) => ToolSaid(e, ToolResultEvent(agent, response));
  }

  lemma {:induction false} DoAllSaid(e: Emitter, ops: seq<Op>)
    requires e.raw ==> e.buf == []
    ensures Said(DoAll(e, ops)) == Said(e) + MeaningAll(ops)
    ensures DoAll(e, ops).raw == e.raw && (e.raw ==> DoAll(e, ops).buf == [])
  {
    if ops != [] {
      var front, last := ops[..|ops| - 1], ops[|ops| - 1];
      DoAllSaid(e, front);
      DoSaid(DoAll(e, front), last);
      ConcatThree(Said(e), MeaningAll(front), Meaning(last));
    }
  }

  /** Whatever the event stream, once flushed, grouped mode and raw mode say the same: no byte is lost,
      repeated, moved across a tool event, or moved between reasoning and reply. */
  lemma GroupedRefinesRaw(evs: seq<Event>)
    ensures var ops := StreamOps(false, evs).0;
            && Flatten(Flush(DoAll(New(false), ops)).out) == Flatten(Flush(DoAll(New(true), ops)).out)
            && Flatten(Flush(DoAll(New(false), ops)).out) == MeaningAll(ops)
  {
    FlushedSays(false, StreamOps(false, evs).0);
    FlushedSays(true, StreamOps(false, evs).0);
  }

  lemma NewSaysNothing(raw: bool)
    ensures Said(New(raw)) == []
  {
  }

  lemma FlushedSays(raw: bool, ops: seq<Op>)
    ensures Flatten(Flush(DoAll(New(raw), ops)).out) == MeaningAll(ops)
  {
    DoAllSaid(New(raw), ops);
    FlushSaid(DoAll(New(raw), ops));
    NewSaysNothing(raw);
    assert [] + MeaningAll(ops) == MeaningAll(ops);
  }

  /** What the ending says itself. */
  function EndingItems(ending: Ending): seq<Item> {
    match ending
    case RunFailed => []
    case ProviderFailed(agent, error) => [Marker(ErrorReport(agent, error))]
    case Finished => [Marker(MessageEnd)]
    case Canceled => [Marker(MessageEnd)]
  }

  lemma EndedSays(e: Emitter, ending: Ending)
    ensures Flatten(Ended(e, ending).out) ==
            if ending.RunFailed? then Flatten(e.out) else Said(e) + EndingItems(ending)
  {
    if ending.ProviderFailed? {
      FlushedThen(e, ErrorReport(ending.agent, ending.error));
    } else {
      FlushedThen(e, MessageEnd);
    }
  }

  lemma FlushedThen(e: Emitter, ev: JsonEvent)
    requires !ev.Delta?
    ensures Flatten(Flush(e).out + [ev]) == Said(e) + [Marker(ev)]
  {
    FlushSaid(e);
    FlattenGrows(Flush(e).out, ev);
  }

  lemma ThroughSays(raw: bool, evs: seq<Event>)
    ensures Said(Through(raw, evs)) == Flatten(Opening(evs)) + MeaningAll(StreamOps(false, evs).0)
    ensures raw ==> Through(raw, evs).buf == []
  {
    var e := New(raw).(out := Opening(evs));
    DoAllSaid(e, StreamOps(false, evs).0);
    assert Tagged(e.kind, e.agent, []) == [];
    assert Flatten(Opening(evs)) + [] == Flatten(Opening(evs));
  }

  /** A whole run: grouped mode says what raw mode says exactly unless the run fails with text held back;
      then that text, and nothing else, is lost. */
  lemma RunRefinesRaw(evs: seq<Event>, ending: Ending)
    ensures var held := Through(false, evs);
            var grouped := Flatten(Ended(held, ending).out);
            var raw := Flatten(Ended(Through(true, evs), ending).out);
            && (grouped == raw <==> !ending.RunFailed? || held.buf == [])
            && raw == if ending.RunFailed? then grouped + Tagged(held.kind, held.agent, held.buf) else grouped
  {
    var held, all := Through(false, evs), Through(true, evs);
    ThroughSays(false, evs);
    ThroughSays(true, evs);
    EndedSays(held, ending);
    EndedSays(all, ending);
    assert Tagged(all.kind, all.agent, []) == [];
    assert Flatten(all.out) + [] == Flatten(all.out);
    if ending.RunFailed? {
      assert |Tagged(held.kind, held.agent, held.buf)| == |held.buf|;
      assert |Flatten(all.out)| == |Flatten(held.out)| + |held.buf|;
      assert held.buf == [] ==> Tagged(held.kind, held.agent, held.buf) == [];
    }
  }

  /** One chunk without a sentence end is held back, and a run that fails then has lost it. */
  lemma FailedRunLosesText(author: string, chunk: Bytes)
    requires chunk != [] && BreakIndex(chunk) == 0
    ensures var evs := [Event(author, true, Some(Content(Model, [Part(chunk, None, None)])))];
            && Through(false, evs).buf == chunk
            && Flatten(Ended(Through(false, evs), RunFailed).out) != Flatten(Ended(Through(true, evs), RunFailed).out)
  {
    var ev := Event(author, true, Some(Content(Model, [Part(chunk, None, None)])));
    var op := Text(TextDelta, author, chunk);
    OneChunkOps(ev, chunk);
    assert [op][..0] == [] && [] + chunk == chunk;
    assert DoAll(New(false).(out := Opening([ev])), [op]) == Do(New(false).(out := Opening([ev])), op);
    RunRefinesRaw([ev], RunFailed);
  }

  lemma OneChunkOps(ev: Event, chunk: Bytes)
    requires chunk != [] && ev.partial && ev.content == Some(Content(Model, [Part(chunk, None, None)]))
    ensures StreamOps(false, [ev]).0 == [Text(TextDelta, ev.author, chunk)]
  {
    var part := Part(chunk, None, None);
    assert [ev][..0] == [] && [part][..0] == [];
    assert PartsOps(false, ev, Model, []) == ([], false) && StreamOps(false, []) == ([], false);
    assert PartsOps(false, ev, Model, [part]).0 == PartOps(false, ev, Model, part).0;
  }

  /** Any chunk of one byte is such a chunk. */
  lemma OneByteIsHeld(b: byte)
    ensures BreakIndex([b]) == 0
  {
  }

  // Deltas stay well-formed UTF-8.

  ghost predicate Deltas(e: Emitter) {
    WellFormed(e.buf) && forall i | 0 <= i < |e.out| && e.out[i].Delta? :: WellFormed(e.out[i].delta)
  }

  /** A cut falls after an ASCII byte or takes everything. */
  lemma CutWellFormed(s: Bytes)
    requires WellFormed(s)
    ensures WellFormed(s[..BreakIndex(s)]) && WellFormed(s[BreakIndex(s)..])
  {
    var n := BreakIndex(s);
    if n == |s| {
      assert s[..n] == s;
    } else if n > 0 {
      CutAfterAscii(s, n);
    } else {
      assert s[n..] == s;
    }
  }

  lemma FlushDeltas(e: Emitter)
    requires Deltas(e)
    ensures Deltas(Flush(e))
  {
    assert e.buf[..|e.buf|] == e.buf;
  }

  lemma FlushAtDeltas(e: Emitter)
    requires Deltas(e)
    ensures Deltas(FlushAt(e, BreakIndex(e.buf)))
  {
    CutWellFormed(e.buf);
  }

  lemma DoDeltas(e: Emitter, op: Op)
    requires Deltas(e) && (op.Text? ==> WellFormed(op.text))
    ensures Deltas(Do(e, op))
  {
    FlushDeltas(e);
    if op.Text? && !e.raw {
      var f := if e.kind != op.kind || e.agent != op.agent then Flush(e) else e;
      WellFormedConcat(f.buf, op.text);
      FlushAtDeltas(Joined(e, op.kind, op.agent, op.text));
    }
  }

  /** When every chunk is well-formed UTF-8, so is every delta. */
  lemma {:induction false} DeltasWellFormed(raw: bool, ops: seq<Op>)
    requires forall i | 0 <= i < |ops| && ops[i].Text? :: WellFormed(ops[i].text)
    ensures Deltas(DoAll(New(raw), ops)) && Deltas(Flush(DoAll(New(raw), ops)))
  {
    if ops != [] {
      DeltasWellFormed(raw, ops[..|ops| - 1]);
      DoDeltas(DoAll(New(raw), ops[..|ops| - 1]), ops[|ops| - 1]);
    }
    var e := DoAll(New(raw), ops);
    assert e.buf[..|e.buf|] == e.buf;
  }

  // Where deltas end and how much is held back.

  predicate GoodCut(c: Bytes) {
    c != [] && (IsSpaceByte(c[|c| - 1]) || |c| >= HARD_LIMIT)
  }

  lemma BreakIsGood(s: Bytes)
    ensures BreakIndex(s) > 0 ==> GoodCut(s[..BreakIndex(s)])
  {
  }

  /** b goes on with the text of a. */
  predicate GoesOn(a: JsonEvent, b: JsonEvent) {
    a.Delta? && b.Delta? && a.kind == b.kind && a.agent == b.agent
  }

  /** Every delta is a good cut, or the text behind it belongs to something else. */
  ghost predicate WellCut(e: Emitter) {
    && !e.raw
    && (forall i | 0 <= i < |e.out| - 1 && GoesOn(e.out[i], e.out[i + 1]) :: GoodCut(e.out[i].delta))
    && (e.out != [] ==>
          var last := e.out[|e.out| - 1];
          last.Delta? && !GoodCut(last.delta) ==> e.buf != [] && !(last.kind == e.kind && last.agent == e.agent))
  }

  /** One more event after a well-cut stream. */
  lemma EmitWellCut(e: Emitter, ev: JsonEvent, f: Emitter)
    requires WellCut(e) && !f.raw && f.out == e.out + [ev]
    requires ev.Delta? ==> ev.kind == e.kind && ev.agent == e.agent && e.buf != []
    requires ev.Delta? && !GoodCut(ev.delta) ==> f.buf != [] && !(ev.kind == f.kind && ev.agent == f.agent)
    ensures WellCut(f)
  {
    forall i | 0 <= i < |f.out| - 1 && GoesOn(f.out[i], f.out[i + 1]) ensures GoodCut(f.out[i].delta) {
      if i < |e.out| - 1 {
        assert GoesOn(e.out[i], e.out[i + 1]);
      }
    }
  }

  /** The buffer once a text has joined it: whatever was forced out first belongs to something else. */
  lemma JoinedWellCut(e: Emitter, kind: Kind, agent: string, s: Bytes)
    requires WellCut(e) && s != []
    ensures WellCut(Joined(e, kind, agent, s)) && Joined(e, kind, agent, s).buf != []
  {
    var f := Joined(e, kind, agent, s);
    if (e.kind != kind || e.agent != agent) && e.buf != [] {
      EmitWellCut(e, Delta(e.kind, e.agent, e.buf[..|e.buf|]), f);
    }
  }

  lemma ToolWellCut(e: Emitter, ev: JsonEvent)
    requires WellCut(e) && !ev.Delta?
    ensures WellCut(Flush(e).(out := Flush(e).out + [ev]))
  {
    var f := Flush(e).(out := Flush(e).out + [ev]);
    if e.buf == [] {
      EmitWellCut(e, ev, f);
    } else {
      forall i | 0 <= i < |f.out| - 1 && GoesOn(f.out[i], f.out[i + 1]) ensures GoodCut(f.out[i].delta) {
        if i < |e.out| - 1 {
          assert GoesOn(e.out[i], e.out[i + 1]);
        }
      }
    }
  }

  lemma DoWellCut(e: Emitter, op: Op)
    requires WellCut(e) && (op.Text? ==> op.text != [])
    ensures WellCut(Do(e, op))
  {
    if op.Text? {
      var f := Joined(e, op.kind, op.agent, op.text);
      var n := BreakIndex(f.buf);
      JoinedWellCut(e, op.kind, op.agent, op.text);
      BreakIsGood(f.buf);
      if n > 0 {
        EmitWellCut(f, Delta(f.kind, f.agent, f.buf[..n]), FlushAt(f, n));
      }
    } else if op.Call? {
      ToolWellCut(e, ToolCallEvent(op.agent, op.call));
    } else {
      ToolWellCut(e, ToolResultEvent(op.agent, op.response));
    }
  }

  /** Of a text exactly: whatever the flush of another kind's or agent's text sent first, the text itself
      sends nothing, or one good cut of the buffer it joined. */
  lemma TextCutsWell(e: Emitter, kind: Kind, agent: string, s: Bytes)
    requires !e.raw
    ensures var f, g := Joined(e, kind, agent, s), Do(e, Text(kind, agent, s));
            || (g.out == f.out && g.buf == f.buf)
            || exists n :: 0 < n <= |f.buf| && GoodCut(f.buf[..n])
                 && g.out == f.out + [Delta(kind, agent, f.buf[..n])] && g.buf == f.buf[n..]
  {
    var f := Joined(e, kind, agent, s);
    BreakIsGood(f.buf);
    if BreakIndex(f.buf) > 0 {
      assert GoodCut(f.buf[..BreakIndex(f.buf)]);
    }
  }

  ghost predicate NoEmptyText(ops: seq<Op>) {
    forall i | 0 <= i < |ops| && ops[i].Text? :: ops[i].text != []
  }

  lemma {:induction false} PartsHaveText(streamed: bool, ev: Event, role: Role, parts: seq<Part>)
    ensures NoEmptyText(PartsOps(streamed, ev, role, parts).0)
  {
    if parts != [] {
      PartsHaveText(streamed, ev, role, parts[..|parts| - 1]);
    }
  }

  lemma {:induction false} StreamHasText(streamed: bool, evs: seq<Event>)
    ensures NoEmptyText(StreamOps(streamed, evs).0)
  {
    if evs != [] {
      var ev := evs[|evs| - 1];
      StreamHasText(streamed, evs[..|evs| - 1]);
      if ev.content.Some? {
        PartsHaveText(Begun(StreamOps(streamed, evs[..|evs| - 1]).1, ev), ev, ev.content.value.role,
                      ev.content.value.parts);
      }
    }
  }

  lemma {:induction false} AllWellCut(ops: seq<Op>)
    requires NoEmptyText(ops)
    ensures WellCut(DoAll(New(false), ops))
  {
    if ops != [] {
      AllWellCut(ops[..|ops| - 1]);
      DoWellCut(DoAll(New(false), ops[..|ops| - 1]), ops[|ops| - 1]);
    }
  }

  /** For every event stream, before and after the last flush: a delta that the next delta goes on with, so
      that no flush forced it out, ends in whitespace or is at least the hard limit long. */
  lemma CutsAtBoundaries(evs: seq<Event>)
    ensures var e := DoAll(New(false), StreamOps(false, evs).0);
            && (forall i | 0 <= i < |e.out| - 1 && GoesOn(e.out[i], e.out[i + 1]) :: GoodCut(e.out[i].delta))
            && var out := Flush(e).out;
               forall i | 0 <= i < |out| - 1 && GoesOn(out[i], out[i + 1]) :: GoodCut(out[i].delta)
  {
    var e := DoAll(New(false), StreamOps(false, evs).0);
    StreamHasText(false, evs);
    AllWellCut(StreamOps(false, evs).0);
    var out := Flush(e).out;
    forall i | 0 <= i < |out| - 1 && GoesOn(out[i], out[i + 1]) ensures GoodCut(out[i].delta) {
      if i < |e.out| - 1 {
        assert GoesOn(e.out[i], e.out[i + 1]);
      }
    }
  }

  /** A chunk short enough and with at most one whitespace byte. */
  ghost predicate Small(s: Bytes) {
    |s| < SOFT_LIMIT && forall i, j | 0 <= i < j < |s| :: !(IsSpaceByte(s[i]) && IsSpaceByte(s[j]))
  }

  /** Sentence ends of a prefix are sentence ends of the whole, and the other way round. */
  lemma SentenceEndLocal(s: Bytes, t: Bytes, i: nat)
    requires i < |s|
    ensures SentenceEnd(s, i) <==> SentenceEnd(s + t, i)
  {
    assert forall k | 0 <= k < |s| :: (s + t)[k] == s[k];
    if Terminated(s, i) {
      var j: nat :| j < i && IsTerminatorByte(s[j]) && forall k | j < k < i :: IsClosingByte(s[k]);
      assert IsTerminatorByte((s + t)[j]) && forall k | j < k < i :: IsClosingByte((s + t)[k]);
    }
    if Terminated(s + t, i) {
      var j: nat :| j < i && IsTerminatorByte((s + t)[j]) && forall k | j < k < i :: IsClosingByte((s + t)[k]);
      assert IsTerminatorByte(s[j]) && forall k | j < k < i :: IsClosingByte(s[k]);
    }
  }

  /** A sentence end of a suffix is one of the whole. */
  lemma SentenceEndShift(s: Bytes, n: nat, i: nat)
    requires n <= |s| && SentenceEnd(s[n..], i)
    ensures SentenceEnd(s, n + i)
  {
    var t := s[n..];
    var j: nat :| j < i && IsTerminatorByte(t[j]) && forall k | j < k < i :: IsClosingByte(t[k]);
    assert IsTerminatorByte(s[n + j]);
    assert forall k | n + j < k < n + i :: s[k] == t[k - n];
  }

  /** After one cut of a settled buffer plus a small chunk nothing is left to cut. */
  lemma CutSettles(buf: Bytes, s: Bytes)
    requires BreakIndex(buf) == 0 && Small(s)
    ensures BreakIndex((buf + s)[BreakIndex(buf + s)..]) == 0
  {
    var all := buf + s;
    var n := BreakIndex(all);
    var rest := all[n..];
    assert forall k | |buf| <= k < |all| :: all[k] == s[k - |buf|];
    if SentenceBreak(all) > 0 {
      assert n - 1 >= |buf| by {
        if n - 1 < |buf| {
          SentenceEndLocal(buf, s, n - 1);
        }
      }
      assert forall k | 0 <= k < |rest| :: rest[k] == s[n + k - |buf|] && !IsSpaceByte(rest[k]);
    } else {
      forall i: nat ensures !SentenceEnd(rest, i) {
        if SentenceEnd(rest, i) {
          SentenceEndShift(all, n, i);
        }
      }
      assert SentenceBreak(rest) == 0;
      if 0 < n < |all| {
        assert forall k | 0 <= k < |rest| :: rest[k] == all[n + k] && rest[k] != 0x20;
        assert |rest| < HARD_LIMIT by {
          if n <= |buf| {
            assert buf[n - 1] == 0x20;
            PastLastSpaceBound(buf, n);
          }
        }
      }
    }
  }

  lemma PastLastSpaceBound(s: Bytes, n: nat)
    requires 0 < n <= |s| && s[n - 1] == 0x20
    ensures PastLastSpace(s) >= n
  {
  }

  /** With small chunks only, the buffer after every operation has no pending break and stays under
      the hard limit. */
  lemma {:induction false} SmallChunksSettle(ops: seq<Op>)
    requires forall i | 0 <= i < |ops| && ops[i].Text? :: Small(ops[i].text)
    ensures var e := DoAll(New(false), ops); !e.raw && BreakIndex(e.buf) == 0 && |e.buf| < HARD_LIMIT
  {
    if ops != [] {
      var e := DoAll(New(false), ops[..|ops| - 1]);
      var op := ops[|ops| - 1];
      SmallChunksSettle(ops[..|ops| - 1]);
      if op.Text? {
        var f := if e.kind != op.kind || e.agent != op.agent then Flush(e) else e;
        CutSettles(f.buf, op.text);
      }
    }
  }

  // One cut per text, at the first sentence end.

  ghost predicate TwoEnds(s: Bytes) {
    exists i: nat, j: nat :: i < j && SentenceEnd(s, i) && SentenceEnd(s, j)
  }

  /** Just past the last sentence end before n, or 0. */
  ghost function LastBreakBefore(s: Bytes, n: nat): (k: nat)
    requires n <= |s|
    ensures k <= n
    ensures k == 0 ==> forall i: nat :: i < n ==> !SentenceEnd(s, i)
    ensures k > 0 ==> SentenceEnd(s, k - 1) && forall i: nat :: k <= i < n ==> !SentenceEnd(s, i)
  {
    if n == 0 then 0 else if SentenceEnd(s, n - 1) then n else LastBreakBefore(s, n - 1)
  }

  /** What the comment on sentenceBreak describes: just past the last sentence end, or 0. */
  ghost function LastBreak(s: Bytes): nat {
    LastBreakBefore(s, |s|)
  }

  /** The first break is the last one exactly when the text has no two sentence ends. */
  lemma FirstIsLastExactly(s: Bytes)
    ensures SentenceBreak(s) == LastBreak(s) <==> !TwoEnds(s)
  {
    var first, last := SentenceBreak(s), LastBreak(s);
    if first != last {
      assert first > 0 && last > 0;
      assert SentenceEnd(s, first - 1) && SentenceEnd(s, last - 1);
      assert first - 1 < last - 1;
    }
    if TwoEnds(s) {
      var i: nat, j: nat :| i < j && SentenceEnd(s, i) && SentenceEnd(s, j);
      assert first <= i + 1 && j + 1 <= last;
    }
  }

  /** A sentence that ends past whitespace ends in what follows the whitespace. */
  lemma SentenceEndPast(s: Bytes, n: nat, i: nat)
    requires 0 < n <= |s| && IsSpaceByte(s[n - 1]) && n <= i && SentenceEnd(s, i)
    ensures SentenceEnd(s[n..], i - n)
  {
    var t := s[n..];
    var j: nat :| j < i && IsTerminatorByte(s[j]) && forall k | j < k < i :: IsClosingByte(s[k]);
    assert !IsTerminatorByte(s[n - 1]) && !IsClosingByte(s[n - 1]);
    assert IsTerminatorByte(t[j - n]);
    assert forall k | j - n < k < i - n :: t[k] == s[n + k];
  }

  lemma FirstCutLeaves(s: Bytes)
    requires SentenceBreak(s) > 0
    ensures SentenceBreak(s[SentenceBreak(s)..]) > 0 <==> TwoEnds(s)
  {
    var n := SentenceBreak(s);
    var rest := s[n..];
    if SentenceBreak(rest) > 0 {
      SentenceEndShift(s, n, SentenceBreak(rest) - 1);
      assert SentenceEnd(s, n - 1) && SentenceEnd(s, n + SentenceBreak(rest) - 1);
    }
    if TwoEnds(s) {
      var i: nat, j: nat :| i < j && SentenceEnd(s, i) && SentenceEnd(s, j);
      SentenceEndPast(s, n, j);
      assert SentenceEnd(rest, j - n);
    }
  }

  lemma NoEndNoneLeft(s: Bytes, n: nat)
    requires n <= |s| && SentenceBreak(s) == 0
    ensures SentenceBreak(s[n..]) == 0
  {
    if SentenceBreak(s[n..]) > 0 {
      SentenceEndShift(s, n, SentenceBreak(s[n..]) - 1);
    }
  }

  /** After a text, a finished sentence stays behind in the buffer exactly when the buffer the text joined
      held two sentence ends, that is, when its first break was not its last. */
  lemma FinishedSentenceLeftExactly(e: Emitter, kind: Kind, agent: string, s: Bytes)
    requires !e.raw
    ensures var joined := Joined(e, kind, agent, s).buf;
            var left := Do(e, Text(kind, agent, s)).buf;
            && (SentenceBreak(left) > 0 <==> TwoEnds(joined))
            && (SentenceBreak(left) > 0 <==> SentenceBreak(joined) != LastBreak(joined))
  {
    var joined := Joined(e, kind, agent, s).buf;
    FirstIsLastExactly(joined);
    if SentenceBreak(joined) > 0 {
      FirstCutLeaves(joined);
    } else {
      NoEndNoneLeft(joined, BreakIndex(joined));
      assert joined[0..] == joined;
    }
  }

  /** At most one cut is made, and with a sentence end in the buffer it is at the first one: exactly that
      sentence goes out, whatever follows. */
  lemma OneCutPerText(e: Emitter, kind: Kind, agent: string, s: Bytes, i: nat)
    requires !e.raw && SentenceEnd(Joined(e, kind, agent, s).buf, i)
    requires forall k: nat :: k < i ==> !SentenceEnd(Joined(e, kind, agent, s).buf, k)
    ensures var f, g := Joined(e, kind, agent, s), Do(e, Text(kind, agent, s));
            g.out == f.out + [Delta(kind, agent, f.buf[..i + 1])] && g.buf == f.buf[i + 1..]
  {
    var b := Joined(e, kind, agent, s).buf;
    assert SentenceBreak(b) > 0;
    assert SentenceBreak(b) - 1 >= i && !(SentenceBreak(b) - 1 > i);
  }

  /** Without a sentence end, a buffer past the soft limit is cut after its last space, the very first byte
      aside: exactly up to that space it goes out. */
  lemma CutsAtLastSpace(e: Emitter, kind: Kind, agent: string, s: Bytes, k: nat)
    requires !e.raw
    requires var b := Joined(e, kind, agent, s).buf;
             && (forall i: nat :: !SentenceEnd(b, i)) && |b| >= 180
             && 0 < k < |b| && b[k] == 0x20 && forall i | k < i < |b| :: b[i] != 0x20
    ensures var f, g := Joined(e, kind, agent, s), Do(e, Text(kind, agent, s));
            g.out == f.out + [Delta(kind, agent, f.buf[..k + 1])] && g.buf == f.buf[k + 1..]
  {
    var b := Joined(e, kind, agent, s).buf;
    assert SentenceBreak(b) == 0;
    PastLastSpaceIs(b, k);
  }

  lemma {:induction false} PastLastSpaceIs(s: Bytes, k: nat)
    requires k < |s| && s[k] == 0x20 && forall i | k < i < |s| :: s[i] != 0x20
    ensures PastLastSpace(s) == k + 1
  {
    if k < |s| - 1 {
      PastLastSpaceIs(s[..|s| - 1], k);
    }
  }

  /** Without a sentence end or a space past the first byte, the buffer is held until the hard limit, and then
      goes out whole. */
  lemma CutsWholeBuffer(e: Emitter, kind: Kind, agent: string, s: Bytes)
    requires !e.raw
    requires var b := Joined(e, kind, agent, s).buf;
             && (forall i: nat :: !SentenceEnd(b, i)) && |b| >= 360
             && forall i | 0 < i < |b| :: b[i] != 0x20
    ensures var f, g := Joined(e, kind, agent, s), Do(e, Text(kind, agent, s));
            g.out == f.out + [Delta(kind, agent, f.buf)] && g.buf == []
  {
    var b := Joined(e, kind, agent, s).buf;
    assert SentenceBreak(b) == 0;
    assert b[..|b|] == b;
  }

  /** In every other case without a sentence end nothing goes out. */
  lemma HoldsBack(e: Emitter, kind: Kind, agent: string, s: Bytes)
    requires !e.raw
    requires var b := Joined(e, kind, agent, s).buf;
             && (forall i: nat :: !SentenceEnd(b, i))
             && (|b| < 180 || (|b| < 360 && forall i | 0 < i < |b| :: b[i] != 0x20))
    ensures var f, g := Joined(e, kind, agent, s), Do(e, Text(kind, agent, s));
            g.out == f.out && g.buf == f.buf
  {
    assert SentenceBreak(Joined(e, kind, agent, s).buf) == 0;
  }

  // What the emitter sends in raw mode, and at the start.

  /** One event per operation, in order, each chunk as it came. */
  function OneEach(ops: seq<Op>): seq<JsonEvent> {
    seq(|ops|, i requires 0 <= i < |ops| =>
      match ops[i]
      case Text(kind, agent, s) => Delta(kind, agent, s)
      case Call(agent, call) => ToolCallEvent(agent, call)
      case Result(agent, response) => ToolResultEvent(agent, response))
  }

  /** Raw mode restores the model's own chunking: every operation is one event of its own. */
  lemma {:induction false} RawIsOneEach(ops: seq<Op>)
    ensures DoAll(New(true), ops).out == OneEach(ops)
    ensures DoAll(New(true), ops).buf == [] && DoAll(New(true), ops).raw
  {
    if ops != [] {
      var front := ops[..|ops| - 1];
      RawIsOneEach(front);
      assert OneEach(ops) == OneEach(front) + [OneEach(ops)[|ops| - 1]];
    }
  }

  /** message_start names the author and role of the first event with content, and comes once. */
  lemma {:induction false} OpeningIsFirst(evs: seq<Event>, i: nat)
    requires i < |evs| && evs[i].content.Some? && forall k | 0 <= k < i :: evs[k].content.None?
    ensures Opening(evs) == [MessageStart(evs[i].author, evs[i].content.value.role)]
  {
    if i < |evs| - 1 {
      OpeningIsFirst(evs[..|evs| - 1], i);
    } else {
      NoOpening(evs[..i]);
    }
  }

  lemma {:induction false} NoOpening(evs: seq<Event>)
    requires forall k | 0 <= k < |evs| :: evs[k].content.None?
    ensures Opening(evs) == []
  {
    if evs != [] {
      NoOpening(evs[..|evs| - 1]);
    }
  }

  // What a part asks for.

  function Rank(op: Op): nat {
    match op
    case Text(_, _, _) => 0
    case Call(_, _) => 1
    case Result(_, _) => 2
  }

  /** The part's text was shown in pieces before, or is a thought: then nothing else of it is looked at. */
  predicate TextOnly(streamed: bool, ev: Event, role: Role, part: Part) {
    part.text != [] && (role.Thinking? || (streamed && !ev.partial))
  }

  /** Text, call and result of a part, in this order and each under the event's author: thoughts as such, whole
      text only if it was not streamed before, and with text left out or thought no call and no result. */
  lemma PartAsks(streamed: bool, ev: Event, role: Role, part: Part, op: Op)
    ensures var (ops, streamed') := PartOps(streamed, ev, role, part);
            && (forall i, j | 0 <= i < j < |ops| :: Rank(ops[i]) < Rank(ops[j]))
            && (op in ops <==>
                match op
                case Text(kind, agent, text) =>
                  && text == part.text && text != [] && agent == ev.author
                  && (if role.Thinking? then kind == ThinkingDelta else kind == TextDelta && (!streamed || ev.partial))
                case Call(agent, call) =>
                  part.call == Some(call) && agent == ev.author && !TextOnly(streamed, ev, role, part)
                case Result(agent, response) =>
                  part.response == Some(response) && agent == ev.author && !TextOnly(streamed, ev, role, part))
            && (streamed' <==> streamed || (ev.partial && part.text != [] && !role.Thinking?))
  {
  }

  // What counts as the end of a sentence.

  function Char(b: byte): char {
    b as int as char
  }

  /** The bytes meant. */
  lemma ByteClasses(b: byte)
    ensures IsTerminatorByte(b) <==> Char(b) in ".!?"
    ensures IsSpaceByte(b) <==> Char(b) in " \n\t\r"
    ensures IsClosingByte(b) <==> Char(b) in "\"')]*_"
  {
  }

  ghost predicate AllClosing(s: Bytes) {
    forall i | 0 <= i < |s| :: IsClosingByte(s[i])
  }

  /** A sentence ends at the whitespace after before: its terminator t has only closing marks behind it. */
  ghost predicate EndsSo(s: Bytes, i: nat, before: Bytes, t: byte, marks: Bytes, space: byte, rest: Bytes) {
    && s == before + [t] + marks + [space] + rest && i == |before| + 1 + |marks|
    && IsTerminatorByte(t) && AllClosing(marks) && IsSpaceByte(space)
  }

  lemma EndsSoIsEnd(s: Bytes, i: nat, before: Bytes, t: byte, marks: Bytes, space: byte, rest: Bytes)
    requires EndsSo(s, i, before, t, marks, space, rest)
    ensures SentenceEnd(s, i)
  {
    var j := |before|;
    assert s[j] == t && s[i] == space;
    assert forall k | j < k < i :: s[k] == marks[k - j - 1];
  }

  lemma EndIsEndsSo(s: Bytes, i: nat, j: nat)
    requires j < i < |s| && IsSpaceByte(s[i]) && IsTerminatorByte(s[j]) && AllClosing(s[j + 1..i])
    ensures EndsSo(s, i, s[..j], s[j], s[j + 1..i], s[i], s[i + 1..])
  {
  }

  /** A sentence ends at whitespace, after a terminator with any number of closing marks behind it. */
  lemma SentenceEndExactly(s: Bytes, i: nat)
    ensures SentenceEnd(s, i) <==>
            exists before: Bytes, t: byte, marks: Bytes, space: byte, rest: Bytes ::
              EndsSo(s, i, before, t, marks, space, rest)
  {
    if SentenceEnd(s, i) {
      var j: nat :| j < i && IsTerminatorByte(s[j]) && forall k | j < k < i :: IsClosingByte(s[k]);
      EndIsEndsSo(s, i, j);
    }
    forall before: Bytes, t: byte, marks: Bytes, space: byte, rest: Bytes
      | EndsSo(s, i, before, t, marks, space, rest)
      ensures SentenceEnd(s, i)
    {
      EndsSoIsEnd(s, i, before, t, marks, space, rest);
    }
  }

  lemma JoinedFresh(kind: Kind, agent: string, s: Bytes)
    ensures Joined(New(false), kind, agent, s).buf == s
  {
    assert [] + s == s;
  }

  lemma DotsEndTwice(s: Bytes)
    requires s == [0x2E, 0x20, 0x2E, 0x20]
    ensures TwoEnds(s)
  {
    assert IsTerminatorByte(s[0]) && IsTerminatorByte(s[2]);
    assert SentenceEnd(s, 1) && SentenceEnd(s, 3);
  }

  /** Two sentences in one chunk leave the second one, finished, in the buffer. */
  lemma TwoSentences(s: Bytes)
    requires s == [0x2E, 0x20, 0x2E, 0x20]
    ensures SentenceBreak(Do(New(false), Text(TextDelta, "m", s)).buf) > 0
  {
    DotsEndTwice(s);
    JoinedFresh(TextDelta, "m", s);
    FinishedSentenceLeftExactly(New(false), TextDelta, "m", s);
  }
}
