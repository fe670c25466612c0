/** The JSON-mode emitter: streamed text regrouped at sentence and word boundaries. The functions
    give the state after each operation; class JsonEmitter does the work. */
module JsonDelta {
  import opened Basics
  import opened StreamDedup

  const SOFT_LIMIT: nat := 180
  const HARD_LIMIT: nat := 360

  datatype Kind = Unset | ThinkingDelta | TextDelta

  datatype JsonEvent =
    | Delta(kind: Kind, agent: string, delta: Bytes)
    | ToolCallEvent(agent: string, call: FunctionCall)
    | ToolResultEvent(agent: string, response: FunctionResponse)
    | MessageStart(agent: string, role: Role)
    | ErrorReport(agent: string, error: string)
    | MessageEnd

  // Where to cut.

  predicate IsSpaceByte(b: byte) {
    b == 0x20 || b == 0x0A || b == 0x09 || b == 0x0D
  }

  predicate IsTerminatorByte(b: byte) {
    b == 0x2E || b == 0x21 || b == 0x3F  // . ! ?
  }

  predicate IsClosingByte(b: byte) {
    b == 0x22 || b == 0x27 || b == 0x29 || b == 0x5D || b == 0x2A || b == 0x5F  // " ' ) ] * _
  }

  /** The first i bytes end in a terminator, closing quotes and brackets aside. */
  ghost predicate Terminated(s: Bytes, i: nat)
    requires i <= |s|
  {
    exists j: nat :: j < i && IsTerminatorByte(s[j]) && forall k | j < k < i :: IsClosingByte(s[k])
  }

  /** A sentence ends at i: whitespace right after a terminated prefix. */
  ghost predicate SentenceEnd(s: Bytes, i: nat) {
    1 <= i < |s| && IsSpaceByte(s[i]) && Terminated(s, i)
  }

  /** Just past the first sentence end at or after i, or 0. */
  ghost function SentenceBreakFrom(s: Bytes, i: nat): (n: nat)
    ensures n <= |s|
    ensures n == 0 ==> forall k: nat :: i <= k ==> !SentenceEnd(s, k)
    ensures n > 0 ==> i < n && SentenceEnd(s, n - 1) && forall k: nat :: i <= k < n - 1 ==> !SentenceEnd(s, k)
    decreases |s| - i
  {
    if i >= |s| then 0 else if SentenceEnd(s, i) then i + 1 else SentenceBreakFrom(s, i + 1)
  }

  ghost function SentenceBreak(s: Bytes): nat {
    SentenceBreakFrom(s, 0)
  }

  /** strings.LastIndexByte(s, ' '), as a count: the bytes up to and including the last space, or 0. */
  function PastLastSpace(s: Bytes): (n: nat)
    ensures n <= |s|
    ensures n > 0 ==> s[n - 1] == 0x20
    ensures forall k | n <= k < |s| :: s[k] != 0x20
  {
    if s == [] then 0 else if s[|s| - 1] == 0x20 then |s| else PastLastSpace(s[..|s| - 1])
  }

  ghost function BreakIndex(s: Bytes): (n: nat)
    ensures n <= |s|
  {
    if SentenceBreak(s) > 0 then SentenceBreak(s)
    else if |s| < SOFT_LIMIT then 0
    else if PastLastSpace(s) > 1 then PastLastSpace(s)
    else if |s| >= HARD_LIMIT then |s|
    else 0
  }

  // The emitter's operations.

  datatype Emitter = Emitter(raw: bool, kind: Kind, agent: string, buf: Bytes, out: seq<JsonEvent>)

  datatype Op =
    | Text(kind: Kind, agent: string, text: Bytes)
    | Call(agent: string, call: FunctionCall)
    | Result(agent: string, response: FunctionResponse)

  function New(raw: bool): Emitter {
    Emitter(raw, Unset, "", [], [])
  }

  function FlushAt(e: Emitter, n: nat): Emitter
    requires n <= |e.buf|
  {
    e.(buf := e.buf[n..], out := e.out + [Delta(e.kind, e.agent, e.buf[..n])])
  }

  function Flush(e: Emitter): Emitter {
    if e.buf == [] then e else FlushAt(e, |e.buf|)
  }

  /** The buffer a text lands in: the running one, or a fresh one after a flush. */
  function Joined(e: Emitter, kind: Kind, agent: string, s: Bytes): Emitter {
    var f := if e.kind != kind || e.agent != agent then Flush(e).(kind := kind, agent := agent) else e;
    f.(buf := f.buf + s)
  }

  ghost function TextDone(e: Emitter, kind: Kind, agent: string, s: Bytes): Emitter {
    if e.raw then
      e.(out := e.out + [Delta(kind, agent, s)])
    else
      var f := Joined(e, kind, agent, s);
      var n := BreakIndex(f.buf);
      if n > 0 then FlushAt(f, n) else f
  }

  ghost function Do(e: Emitter, op: Op): Emitter {
    match op
    case Text(kind, agent, s) => TextDone(e, kind, agent, s)
    case Call(agent, call) =>
      var f := Flush(e);
      f.(out := f.out + [ToolCallEvent(agent, call)])
    case Result(agent, response) =>
      var f := Flush(e);
      f.(out := f.out + [ToolResultEvent(agent, response)])
  }

  ghost function DoAll(e: Emitter, ops: seq<Op>): Emitter {
    if ops == [] then e else Do(DoAll(e, ops[..|ops| - 1]), ops[|ops| - 1])
  }

  // What the parts of an event ask of the emitter.

  function PartOps(streamed: bool, ev: Event, role: Role, part: Part): (seq<Op>, bool) {
    if part.text != [] && role.Thinking? then
      ([Text(ThinkingDelta, ev.author, part.text)], streamed)
    else if part.text != [] && streamed && !ev.partial then
      ([], streamed)
    else
      ((if part.text != [] then [Text(TextDelta, ev.author, part.text)] else [])
       + (if part.call.Some? then [Call(ev.author, part.call.value)] else [])
       + (if part.response.Some? then [Result(ev.author, part.response.value)] else []),
       streamed || (part.text != [] && ev.partial))
  }

  /** The operations for the first k parts of an event, and the flag after them. */
  function PartsOps(streamed: bool, ev: Event, role: Role, parts: seq<Part>): (seq<Op>, bool) {
    if parts == [] then
      ([], streamed)
    else
      var (ops, st) := PartsOps(streamed, ev, role, parts[..|parts| - 1]);
      var (more, st') := PartOps(st, ev, role, parts[|parts| - 1]);
      (ops + more, st')
  }

  /** One event of the stream: BeginEvent, then its parts; an event without content is skipped. */
  function EventOps(streamed: bool, ev: Event): (seq<Op>, bool) {
    match ev.content
    case None => ([], streamed)
    case Some(c) => PartsOps(Begun(streamed, ev), ev, c.role, c.parts)
  }

  function StreamOps(streamed: bool, evs: seq<Event>): (seq<Op>, bool) {
    if evs == [] then
      ([], streamed)
    else
      var (ops, st) := StreamOps(streamed, evs[..|evs| - 1]);
      var (more, st') := EventOps(st, evs[|evs| - 1]);
      (ops + more, st')
  }

  // A whole run.

  /** How the run ends: its events run out, its context is canceled, one of its events reports a failure of
      the provider, or it fails with an error. */
  datatype Ending = Finished | Canceled | ProviderFailed(agent: string, error: string) | RunFailed

  /** message_start, at the first event with content. */
  function Opening(evs: seq<Event>): seq<JsonEvent> {
    if evs == [] then
      []
    else
      var before, ev := Opening(evs[..|evs| - 1]), evs[|evs| - 1];
      if before == [] && ev.content.Some? then [MessageStart(ev.author, ev.content.value.role)] else before
  }

  /** The emitter once the events of a run are through. */
  ghost function Through(raw: bool, evs: seq<Event>): Emitter {
    DoAll(New(raw).(out := Opening(evs)), StreamOps(false, evs).0)
  }

  /** What the ending still emits. A run that fails returns at once, without a flush. */
  function Ended(e: Emitter, ending: Ending): Emitter {
    match ending
    case RunFailed => e
    case ProviderFailed(agent, error) => Flush(e).(out := Flush(e).out + [ErrorReport(agent, error)])
    case Finished => Flush(e).(out := Flush(e).out + [MessageEnd])
    case Canceled => Flush(e).(out := Flush(e).out + [MessageEnd])
  }

  /** Before the first event with content nothing is asked of the emitter. */
  lemma {:induction false} NothingBeforeOpening(evs: seq<Event>)
    ensures Opening(evs) == [] ==> StreamOps(false, evs).0 == [] && !StreamOps(false, evs).1
  {
    if evs != [] {
      NothingBeforeOpening(evs[..|evs| - 1]);
    }
  }

  lemma ThroughStep(raw: bool, evs: seq<Event>, i: nat)
    requires i < |evs|
    ensures var before, ev := evs[..i], evs[i];
            var e := Through(raw, before);
            var e := if Opening(before) == [] && ev.content.Some?
                     then e.(out := e.out + [MessageStart(ev.author, ev.content.value.role)])
                     else e;
            && Through(raw, evs[..i + 1]) == DoAll(e, EventOps(StreamOps(false, before).1, ev).0)
            && StreamOps(false, evs[..i + 1]).1 == EventOps(StreamOps(false, before).1, ev).1
  {
    var before, ev, upTo := evs[..i], evs[i], evs[..i + 1];
    var (ops, st) := StreamOps(false, before);
    var start := New(raw).(out := Opening(upTo));
    assert upTo[..|upTo| - 1] == before && upTo[|upTo| - 1] == ev;
    assert StreamOps(false, upTo).0 == ops + EventOps(st, ev).0;
    DoAllConcat(start, ops, EventOps(st, ev).0);
    if Opening(before) == [] && ev.content.Some? {
      NothingBeforeOpening(before);
      assert ops == [] && st == false;
      assert Through(raw, before) == New(raw);
      assert start == New(raw).(out := [] + [MessageStart(ev.author, ev.content.value.role)]);
      assert DoAll(start, ops) == start;
    } else {
      assert Opening(upTo) == Opening(before);
      assert DoAll(start, ops) == Through(raw, before);
    }
    assert Through(raw, upTo) == DoAll(start, StreamOps(false, upTo).0);
    assert StreamOps(false, upTo).1 == EventOps(st, ev).1;
  }

  lemma {:induction false} DoAllConcat(e: Emitter, a: seq<Op>, b: seq<Op>)
    ensures DoAll(e, a + b) == DoAll(DoAll(e, a), b)
  {
    if b == [] {
      assert a + b == a;
    } else {
      assert (a + b)[..|a + b| - 1] == a + b[..|b| - 1];
      DoAllConcat(e, a, b[..|b| - 1]);
    }
  }

  lemma PartsOpsStep(e: Emitter, streamed: bool, ev: Event, role: Role, parts: seq<Part>, i: nat)
    requires i < |parts|
    ensures var (ops, st) := PartsOps(streamed, ev, role, parts[..i]);
            var (more, st') := PartOps(st, ev, role, parts[i]);
            && DoAll(e, PartsOps(streamed, ev, role, parts[..i + 1]).0) == DoAll(DoAll(e, ops), more)
            && PartsOps(streamed, ev, role, parts[..i + 1]).1 == st'
  {
    var (ops, st) := PartsOps(streamed, ev, role, parts[..i]);
    assert parts[..i + 1][..i] == parts[..i];
    DoAllConcat(e, ops, PartOps(st, ev, role, parts[i]).0);
  }

  // The code.

  /** sentenceBreak: its loop stops at the first break, not the last. */
  method FindSentenceBreak(s: Bytes) returns (n: nat)
    ensures n == SentenceBreak(s)
  {
    var i := 1;
    while i < |s|
      invariant 1 <= i
      invariant forall k: nat :: k < i ==> !SentenceEnd(s, k)
    {
      if IsSpaceByte(s[i]) {
        var j := i - 1;
        while j >= 0 && IsClosingByte(s[j])
          invariant -1 <= j < i
          invariant forall k | j < k < i :: IsClosingByte(s[k])
        {
          j := j - 1;
        }
        if j >= 0 && IsTerminatorByte(s[j]) {
          assert SentenceEnd(s, i);
          return i + 1;
        }
        assert !Terminated(s, i) by {
          forall t: nat | t < i && IsTerminatorByte(s[t]) ensures exists k :: t < k < i && !IsClosingByte(s[k]) {
            assert t < j;
          }
        }
      }
      i := i + 1;
    }
    n := 0;
  }

  class JsonEmitter {
    const raw: bool
    var kind: Kind
    var agent: string
    var buf: Bytes
    var out: seq<JsonEvent>

    function View(): Emitter
      reads this
    {
      Emitter(raw, kind, agent, buf, out)
    }

    constructor (raw: bool)
      ensures this.raw == raw && View() == New(raw)
    {
      this.raw := raw;
      kind, agent, buf, out := Unset, "", [], [];
    }

    method Emit(ev: JsonEvent)
      modifies this`out
      ensures out == old(out) + [ev]
    {
      out := out + [ev];
    }

    method FlushFirst(n: nat)
      requires n <= |buf|
      modifies this`buf, this`out
      ensures View() == FlushAt(old(View()), n)
    {
      var chunk, rest := buf[..n], buf[n..];
      buf := rest;
      Emit(Delta(kind, agent, chunk));
    }

    method FlushBuffer()
      modifies this`buf, this`out
      ensures View() == Flush(old(View()))
    {
      if |buf| == 0 {
        return;
      }
      FlushFirst(|buf|);
    }

    method FindBreak() returns (n: nat)
      ensures n == BreakIndex(buf)
    {
      n := FindSentenceBreak(buf);
      if n > 0 {
        return;
      }
      if |buf| < SOFT_LIMIT {
        return 0;
      }
      var past := PastLastSpace(buf);
      if past > 1 {
        return past;
      }
      if |buf| >= HARD_LIMIT {
        return |buf|;
      }
      n := 0;
    }

    method AddText(newKind: Kind, agentName: string, s: Bytes)
      modifies this
      ensures View() == TextDone(old(View()), newKind, agentName, s)
    {
      if raw {
        Emit(Delta(newKind, agentName, s));
        return;
      }
      if kind != newKind || agent != agentName {
        FlushBuffer();
        kind, agent := newKind, agentName;
      }
      buf := buf + s;
      var n := FindBreak();
      if n > 0 {
        FlushFirst(n);
      }
    }

    /** parts: after it the emitter has done what the event's parts ask, given what was streamed. */
    method Parts(ev: Event, dedup: StreamDedup)
      requires ev.content.Some?
      modifies this, dedup
      ensures var (ops, st) := PartsOps(old(dedup.streamed), ev, ev.content.value.role, ev.content.value.parts);
              View() == DoAll(old(View()), ops) && dedup.streamed == st
    {
      var role, parts := ev.content.value.role, ev.content.value.parts;
      var i := 0;
      assert parts[..0] == [];
      while i < |parts|
        invariant 0 <= i <= |parts|
        invariant View() == DoAll(old(View()), PartsOps(old(dedup.streamed), ev, role, parts[..i]).0)
        invariant dedup.streamed == PartsOps(old(dedup.streamed), ev, role, parts[..i]).1
      {
        PartsOpsStep(old(View()), old(dedup.streamed), ev, role, parts, i);
        Part(ev, role, parts[i], dedup);
        i := i + 1;
      }
      assert parts[..i] == parts;
    }

    /** The loop of runJSON over the events of a run, and its end. */
    method Run(evs: seq<Event>, ending: Ending, dedup: StreamDedup)
      requires View() == New(raw) && !dedup.streamed
      modifies this, dedup
      ensures View() == Ended(Through(raw, evs), ending)
    {
      var started := false;
      var i := 0;
      while i < |evs|
        invariant 0 <= i <= |evs|
        invariant View() == Through(raw, evs[..i]) && dedup.streamed == StreamOps(false, evs[..i]).1
        invariant started == (Opening(evs[..i]) != [])
      {
        var ev := evs[i];
        ThroughStep(raw, evs, i);
        assert evs[..i + 1][..i] == evs[..i];
        i := i + 1;
        if ev.content.None? {
          continue;
        }
        if !started {
          Emit(MessageStart(ev.author, ev.content.value.role));
          started := true;
        }
        dedup.BeginEvent(ev);
        Parts(ev, dedup);
      }
      assert evs[..i] == evs;
      if ending.RunFailed? {
        return;
      }
      FlushBuffer();
      Emit(if ending.ProviderFailed? then ErrorReport(ending.agent, ending.error) else MessageEnd);
    }

    method Part(ev: Event, role: Role, part: Part, dedup: StreamDedup)
      modifies this, dedup
      ensures var (ops, st) := PartOps(old(dedup.streamed), ev, role, part);
              View() == DoAll(old(View()), ops) && dedup.streamed == st
    {
      PartUnrolled(View(), dedup.streamed, ev, role, part);
      if part.text != [] && role.Thinking? {
        AddText(ThinkingDelta, ev.author, part.text);
        return;
      }
      if part.text != [] {
        var skip := dedup.SkipText(ev);
        if skip {
          return;
        }
        AddText(TextDelta, ev.author, part.text);
      }
      if part.call.Some? {
        FlushBuffer();
        Emit(ToolCallEvent(ev.author, part.call.value));
      }
      if part.response.Some? {
        FlushBuffer();
        Emit(ToolResultEvent(ev.author, part.response.value));
      }
    }
  }

  ghost function DoSome(e: Emitter, ops: seq<Op>): Emitter
    requires |ops| <= 1
  {
    if |ops| == 1 then Do(e, ops[0]) else e
  }

  lemma DoAtMostOne(e: Emitter, ops: seq<Op>)
    requires |ops| <= 1
    ensures DoAll(e, ops) == DoSome(e, ops)
  {
    if |ops| == 1 {
      assert ops[..0] == [];
    }
  }

  /** The operations of one part, one field of the part at a time. */
  lemma PartUnrolled(e: Emitter, streamed: bool, ev: Event, role: Role, part: Part)
    ensures DoAll(e, PartOps(streamed, ev, role, part).0) ==
            if part.text != [] && role.Thinking? then
              TextDone(e, ThinkingDelta, ev.author, part.text)
            else if part.text != [] && streamed && !ev.partial then
              e
            else
              var f := if part.text != [] then TextDone(e, TextDelta, ev.author, part.text) else e;
              var g := if part.call.Some? then Do(f, Call(ev.author, part.call.value)) else f;
              if part.response.Some? then Do(g, Result(ev.author, part.response.value)) else g
  {
    var text := if part.text != [] then [Text(TextDelta, ev.author, part.text)] else [];
    var call := if part.call.Some? then [Call(ev.author, part.call.value)] else [];
    var response := if part.response.Some? then [Result(ev.author, part.response.value)] else [];
    DoAtMostOne(e, [Text(ThinkingDelta, ev.author, part.text)]);
    DoAllConcat(e, text + call, response);
    DoAllConcat(e, text, call);
    DoAtMostOne(e, text);
    DoAtMostOne(DoAll(e, text), call);
    DoAtMostOne(DoAll(DoAll(e, text), call), response);
  }
}
