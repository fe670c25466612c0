/** When StreamDedup shows every turn's text exactly once. */
module DedupTheorems {
  import opened Basics
  import opened StreamDedup
  import opened JsonDelta

  /** A piece of a streamed turn: some of its text, or reasoning that comes between. */
  datatype Piece = Said(chunk: Bytes) | Mused(partial: bool, parts: seq<Part>)

  /** How a model's turn arrives: in pieces and then its text once more whole, or only whole; either way with
      the tool calls of the turn. Between turns come reasoning and other people's events. */
  datatype Beat =
    | Streamed(author: string, pieces: seq<Piece>, calls: seq<Part>)
    | Bare(author: string, text: Bytes, calls: seq<Part>)
    | Thought(author: string, partial: bool, parts: seq<Part>)
    | Outside(author: string, name: string, parts: seq<Part>)

  /** The parts that follow a turn's text carry calls, not text. */
  ghost predicate IsBeat(b: Beat) {
    b.Streamed? || b.Bare? ==> forall i | 0 <= i < |b.calls| :: b.calls[i].text == []
  }

  ghost predicate AreBeats(beats: seq<Beat>) {
    forall i | 0 <= i < |beats| :: IsBeat(beats[i])
  }

  /** The text of a streamed turn. */
  function Joint(pieces: seq<Piece>): Bytes {
    if pieces == [] then
      []
    else
      var last := pieces[|pieces| - 1];
      Joint(pieces[..|pieces| - 1]) + if last.Said? then last.chunk else []
  }

  function PieceEvent(author: string, piece: Piece): Event {
    match piece
    case Said(chunk) => Event(author, true, Some(Content(Model, [Part(chunk, None, None)])))
    case Mused(partial, parts) => Event(author, partial, Some(Content(Thinking, parts)))
  }

  function PieceEvents(author: string, pieces: seq<Piece>): seq<Event> {
    if pieces == [] then []
    else PieceEvents(author, pieces[..|pieces| - 1]) + [PieceEvent(author, pieces[|pieces| - 1])]
  }

  function Whole(author: string, text: Bytes, calls: seq<Part>): Event {
    Event(author, false, Some(Content(Model, [Part(text, None, None)] + calls)))
  }

  function EventsOf(b: Beat): seq<Event> {
    match b
    case Streamed(author, pieces, calls) => PieceEvents(author, pieces) + [Whole(author, Joint(pieces), calls)]
    case Bare(author, text, calls) => [Whole(author, text, calls)]
    case Thought(author, partial, parts) => [Event(author, partial, Some(Content(Thinking, parts)))]
    case Outside(author, name, parts) => [Event(author, false, Some(Content(OtherRole(name), parts)))]
  }

  function EventsOfAll(beats: seq<Beat>): seq<Event> {
    if beats == [] then [] else EventsOfAll(beats[..|beats| - 1]) + EventsOf(beats[|beats| - 1])
  }

  // What each beat should show.

  function Shown(author: string, text: Bytes): seq<Op> {
    if text != [] then [Text(TextDelta, author, text)] else []
  }

  function CallOps(author: string, p: Part): seq<Op> {
    (if p.call.Some? then [Call(author, p.call.value)] else [])
    + (if p.response.Some? then [Result(author, p.response.value)] else [])
  }

  function CallOpsAll(author: string, parts: seq<Part>): seq<Op> {
    if parts == [] then [] else CallOpsAll(author, parts[..|parts| - 1]) + CallOps(author, parts[|parts| - 1])
  }

  /** An event of somebody else is shown part by part, reasoning as reasoning. */
  function PlainOps(kind: Kind, author: string, parts: seq<Part>): seq<Op> {
    if parts == [] then
      []
    else
      var p := parts[|parts| - 1];
      PlainOps(kind, author, parts[..|parts| - 1])
      + if p.text != [] && kind.ThinkingDelta? then [Text(kind, author, p.text)]
        else (if p.text != [] then [Text(kind, author, p.text)] else []) + CallOps(author, p)
  }

  function PieceOps(author: string, piece: Piece): seq<Op> {
    match piece
    case Said(chunk) => Shown(author, chunk)
    case Mused(_, parts) => PlainOps(ThinkingDelta, author, parts)
  }

  function PiecesOps(author: string, pieces: seq<Piece>): seq<Op> {
    if pieces == [] then []
    else PiecesOps(author, pieces[..|pieces| - 1]) + PieceOps(author, pieces[|pieces| - 1])
  }

  /** Each turn's text and reasoning once, in the pieces it came in, then the turn's tool calls. */
  function Wanted(b: Beat): seq<Op> {
    match b
    case Streamed(author, pieces, calls) => PiecesOps(author, pieces) + CallOpsAll(author, calls)
    case Bare(author, text, calls) => Shown(author, text) + CallOpsAll(author, calls)
    case Thought(author, _, parts) => PlainOps(ThinkingDelta, author, parts)
    case Outside(author, _, parts) => PlainOps(TextDelta, author, parts)
  }

  function WantedAll(beats: seq<Beat>): seq<Op> {
    if beats == [] then [] else WantedAll(beats[..|beats| - 1]) + Wanted(beats[|beats| - 1])
  }

  /** A turn that comes only whole, with text, after a turn that streamed text, and no event of
      somebody else between them. */
  ghost predicate Hidden(beats: seq<Beat>, j: nat)
    requires j < |beats|
  {
    beats[j].Bare? && beats[j].text != [] && StreamedBefore(beats, j)
  }

  ghost predicate StreamedBefore(beats: seq<Beat>, j: nat)
    requires j <= |beats|
  {
    exists i: nat :: i < j && StreamsText(beats[i]) && forall k | i < k < j :: !beats[k].Outside?
  }

  predicate StreamsText(b: Beat) {
    b.Streamed? && Joint(b.pieces) != []
  }

  // What the flag lets through.

  lemma StreamOpsLast(streamed: bool, evs: seq<Event>, ev: Event)
    ensures var (ops, st) := StreamOps(streamed, evs);
            && StreamOps(streamed, evs + [ev]).0 == ops + EventOps(st, ev).0
            && StreamOps(streamed, evs + [ev]).1 == EventOps(st, ev).1
  {
    assert (evs + [ev])[..|evs + [ev]| - 1] == evs;
  }

  lemma {:induction false} StreamOpsConcat(streamed: bool, a: seq<Event>, b: seq<Event>)
    ensures var (ops, st) := StreamOps(streamed, a);
            var (more, st') := StreamOps(st, b);
            StreamOps(streamed, a + b).0 == ops + more && StreamOps(streamed, a + b).1 == st'
  {
    if b == [] {
      assert a + b == a;
    } else {
      var front, ev := b[..|b| - 1], b[|b| - 1];
      assert a + b == (a + front) + [ev] && b == front + [ev];
      StreamOpsConcat(streamed, a, front);
      StreamOpsLast(streamed, a + front, ev);
      StreamOpsLast(StreamOps(streamed, a).1, front, ev);
      ConcatThree(StreamOps(streamed, a).0, StreamOps(StreamOps(streamed, a).1, front).0,
                  EventOps(StreamOps(streamed, a + front).1, ev).0);
    }
  }

  lemma OneEvent(streamed: bool, ev: Event)
    ensures StreamOps(streamed, [ev]).0 == EventOps(streamed, ev).0
    ensures StreamOps(streamed, [ev]).1 == EventOps(streamed, ev).1
  {
    assert [ev][..0] == [];
    assert StreamOps(streamed, []) == ([], streamed);
  }

  lemma OnePart(streamed: bool, ev: Event, role: Role, p: Part)
    ensures PartsOps(streamed, ev, role, [p]).0 == PartOps(streamed, ev, role, p).0
    ensures PartsOps(streamed, ev, role, [p]).1 == PartOps(streamed, ev, role, p).1
  {
    assert [p][..0] == [];
    assert PartsOps(streamed, ev, role, []) == ([], streamed);
  }

  /** The text part of a whole turn, then its calls. */
  lemma {:induction false} WholeParts(streamed: bool, ev: Event, text: Bytes, calls: seq<Part>)
    requires !ev.partial && forall i | 0 <= i < |calls| :: calls[i].text == []
    ensures PartsOps(streamed, ev, Model, [Part(text, None, None)] + calls).0 ==
            (if streamed then [] else Shown(ev.author, text)) + CallOpsAll(ev.author, calls)
    ensures PartsOps(streamed, ev, Model, [Part(text, None, None)] + calls).1 == streamed
  {
    var all := [Part(text, None, None)] + calls;
    if calls == [] {
      assert all == [Part(text, None, None)];
      OnePart(streamed, ev, Model, Part(text, None, None));
    } else {
      var last := calls[|calls| - 1];
      assert all[..|all| - 1] == [Part(text, None, None)] + calls[..|calls| - 1];
      WholeParts(streamed, ev, text, calls[..|calls| - 1]);
      assert PartOps(streamed, ev, Model, last).0 == CallOps(ev.author, last);
    }
  }

  lemma WholeOps(streamed: bool, author: string, text: Bytes, calls: seq<Part>)
    requires forall i | 0 <= i < |calls| :: calls[i].text == []
    ensures StreamOps(streamed, [Whole(author, text, calls)]).0 ==
            if streamed then CallOpsAll(author, calls) else Shown(author, text) + CallOpsAll(author, calls)
    ensures StreamOps(streamed, [Whole(author, text, calls)]).1 == streamed
  {
    OneEvent(streamed, Whole(author, text, calls));
    WholeParts(streamed, Whole(author, text, calls), text, calls);
  }

  lemma {:induction false} PlainParts(streamed: bool, ev: Event, role: Role, parts: seq<Part>)
    requires role.Thinking? || (!streamed && !ev.partial)
    ensures PartsOps(streamed, ev, role, parts).0 ==
            PlainOps(KindOf(role), ev.author, parts)
    ensures PartsOps(streamed, ev, role, parts).1 == streamed
  {
    if parts != [] {
      PlainParts(streamed, ev, role, parts[..|parts| - 1]);
    }
  }

  function After(streamed: bool, b: Beat): bool {
    match b
    case Streamed(_, pieces, _) => streamed || Joint(pieces) != []
    case Outside(_, _, _) => false
    case _ => streamed
  }

  predicate Loses(streamed: bool, b: Beat) {
    b.Bare? && b.text != [] && streamed
  }

  function KindOf(role: Role): Kind {
    if role.Thinking? then ThinkingDelta else TextDelta
  }

  lemma PlainEvent(streamed: bool, author: string, partial: bool, role: Role, parts: seq<Part>)
    requires role.Thinking? || (role.OtherRole? && !partial)
    ensures var evs := [Event(author, partial, Some(Content(role, parts)))];
            && StreamOps(streamed, evs).0 == PlainOps(KindOf(role), author, parts)
            && StreamOps(streamed, evs).1 == (role.Thinking? && streamed)
  {
    var ev := Event(author, partial, Some(Content(role, parts)));
    OneEvent(streamed, ev);
    PlainParts(Begun(streamed, ev), ev, role, parts);
  }

  /** A piece is shown as it is, whatever came before, and text raises the flag. */
  lemma OnePiece(streamed: bool, author: string, piece: Piece)
    ensures StreamOps(streamed, [PieceEvent(author, piece)]).0 == PieceOps(author, piece)
    ensures StreamOps(streamed, [PieceEvent(author, piece)]).1
         == (streamed || (piece.Said? && piece.chunk != []))
  {
    match piece
    case Said(chunk) =>
      OneEvent(streamed, PieceEvent(author, piece));
      OnePart(streamed, PieceEvent(author, piece), Model, Part(chunk, None, None));
    case Mused(partial, parts) => PlainEvent(streamed, author, partial, Thinking, parts);
  }

  lemma {:induction false} AllPieces(streamed: bool, author: string, pieces: seq<Piece>)
    ensures StreamOps(streamed, PieceEvents(author, pieces)).0 == PiecesOps(author, pieces)
    ensures StreamOps(streamed, PieceEvents(author, pieces)).1 == (streamed || Joint(pieces) != [])
  {
    if pieces != [] {
      var front, last := pieces[..|pieces| - 1], pieces[|pieces| - 1];
      AllPieces(streamed, author, front);
      StreamOpsConcat(streamed, PieceEvents(author, front), [PieceEvent(author, last)]);
      OnePiece(StreamOps(streamed, PieceEvents(author, front)).1, author, last);
    }
  }

  lemma StreamedOps(streamed: bool, author: string, pieces: seq<Piece>, calls: seq<Part>)
    requires forall i | 0 <= i < |calls| :: calls[i].text == []
    ensures var evs := EventsOf(Streamed(author, pieces, calls));
            && StreamOps(streamed, evs).0 == PiecesOps(author, pieces) + CallOpsAll(author, calls)
            && StreamOps(streamed, evs).1 == (streamed || Joint(pieces) != [])
  {
    var whole := Whole(author, Joint(pieces), calls);
    var st := streamed || Joint(pieces) != [];
    AllPieces(streamed, author, pieces);
    StreamOpsConcat(streamed, PieceEvents(author, pieces), [whole]);
    WholeOps(st, author, Joint(pieces), calls);
    assert !st ==> Shown(author, Joint(pieces)) + CallOpsAll(author, calls) == CallOpsAll(author, calls);
  }

  /** A beat shows what it should, less the text of a bare turn that follows a streamed one. */
  lemma BeatOps(streamed: bool, b: Beat)
    requires IsBeat(b)
    ensures StreamOps(streamed, EventsOf(b)).0 ==
            if Loses(streamed, b) then CallOpsAll(b.author, b.calls) else Wanted(b)
    ensures StreamOps(streamed, EventsOf(b)).1 == After(streamed, b)
  {
    match b
    case Streamed(author, pieces, calls) => StreamedOps(streamed, author, pieces, calls);
    case Bare(author, text, calls) =>
      WholeOps(streamed, author, text, calls);
    case Thought(author, partial, parts) => PlainEvent(streamed, author, partial, Thinking, parts);
    case Outside(author, name, parts) => PlainEvent(streamed, author, false, OtherRole(name), parts);
  }

  function TextBytes(ops: seq<Op>): nat {
    if ops == [] then
      0
    else
      TextBytes(ops[..|ops| - 1]) + if ops[|ops| - 1].Text? then |ops[|ops| - 1].text| else 0
  }

  lemma {:induction false} TextBytesConcat(a: seq<Op>, b: seq<Op>)
    ensures TextBytes(a + b) == TextBytes(a) + TextBytes(b)
  {
    if b == [] {
      assert a + b == a;
    } else {
      var all := a + b;
      assert all[..|all| - 1] == a + b[..|b| - 1];
      TextBytesConcat(a, b[..|b| - 1]);
    }
  }

  /** The flag is up exactly when text was streamed since the last event of somebody else. */
  lemma {:induction false} FlagMeansStreamed(beats: seq<Beat>)
    requires AreBeats(beats)
    ensures StreamOps(false, EventsOfAll(beats)).1 <==> StreamedBefore(beats, |beats|)
  {
    if beats != [] {
      var n := |beats| - 1;
      var before := beats[..n];
      FlagMeansStreamed(before);
      var st := StreamOps(false, EventsOfAll(before)).1;
      StreamOpsConcat(false, EventsOfAll(before), EventsOf(beats[n]));
      BeatOps(st, beats[n]);
      StreamedBeforeStep(beats, n);
    }
  }

  lemma StreamedBeforeStep(beats: seq<Beat>, n: nat)
    requires n < |beats|
    ensures StreamedBefore(beats[..n], n) <==> StreamedBefore(beats, n)
    ensures StreamedBefore(beats, n + 1) <==>
            StreamsText(beats[n]) || (StreamedBefore(beats, n) && !beats[n].Outside?)
  {
    if StreamedBefore(beats, n) {
      var i: nat :| i < n && StreamsText(beats[i]) && forall k | i < k < n :: !beats[k].Outside?;
      assert StreamsText(beats[..n][i]);
    }
  }

  /** How far the operations fall short of what is wanted: not at all, or by some text. */
  ghost predicate FallsShort(ops: seq<Op>, wanted: seq<Op>, short: bool) {
    if short then TextBytes(ops) < TextBytes(wanted) else ops == wanted
  }

  lemma ShortStep(ops: seq<Op>, wanted: seq<Op>, short: bool, streamed: bool, b: Beat)
    requires FallsShort(ops, wanted, short) && IsBeat(b)
    ensures FallsShort(ops + StreamOps(streamed, EventsOf(b)).0, wanted + Wanted(b), short || Loses(streamed, b))
  {
    BeatOps(streamed, b);
    var more := StreamOps(streamed, EventsOf(b)).0;
    TextBytesConcat(ops, more);
    TextBytesConcat(wanted, Wanted(b));
    if Loses(streamed, b) {
      var text := Shown(b.author, b.text);
      TextBytesConcat(text, more);
      assert text[..0] == [];
      assert TextBytes(text) == |b.text|;
    }
  }

  ghost predicate SomeHidden(beats: seq<Beat>) {
    exists j: nat :: j < |beats| && Hidden(beats, j)
  }

  /** The text shown falls short of the text wanted exactly when some turn is hidden. */
  lemma {:induction false} ShownText(beats: seq<Beat>)
    requires AreBeats(beats)
    ensures FallsShort(StreamOps(false, EventsOfAll(beats)).0, WantedAll(beats), SomeHidden(beats))
  {
    if beats != [] {
      var n := |beats| - 1;
      var before, b := beats[..n], beats[n];
      ShownText(before);
      var st := StreamOps(false, EventsOfAll(before)).1;
      StreamOpsConcat(false, EventsOfAll(before), EventsOf(b));
      ShortStep(StreamOps(false, EventsOfAll(before)).0, WantedAll(before), SomeHidden(before), st, b);
      HiddenStep(beats, n);
    }
  }

  lemma HiddenStep(beats: seq<Beat>, n: nat)
    requires AreBeats(beats) && |beats| == n + 1
    ensures SomeHidden(beats) <==>
            SomeHidden(beats[..n]) || Loses(StreamOps(false, EventsOfAll(beats[..n])).1, beats[n])
  {
    FlagMeansStreamed(beats[..n]);
    StreamedBeforeStep(beats, n);
    assert Loses(StreamOps(false, EventsOfAll(beats[..n])).1, beats[n]) <==> Hidden(beats, n);
    if SomeHidden(beats[..n]) {
      var j: nat :| j < n && Hidden(beats[..n], j);
      StreamedBeforePrefix(beats, n, j);
      assert Hidden(beats, j);
    }
    if SomeHidden(beats) && !Hidden(beats, n) {
      var j: nat :| j < |beats| && Hidden(beats, j);
      StreamedBeforePrefix(beats, n, j);
      assert Hidden(beats[..n], j);
    }
  }

  lemma StreamedBeforePrefix(beats: seq<Beat>, n: nat, j: nat)
    requires j < n <= |beats|
    ensures StreamedBefore(beats[..n], j) <==> StreamedBefore(beats, j)
  {
    if StreamedBefore(beats, j) {
      var i: nat :| i < j && StreamsText(beats[i]) && forall k | i < k < j :: !beats[k].Outside?;
      assert StreamsText(beats[..n][i]);
    }
    if StreamedBefore(beats[..n], j) {
      var i: nat :| i < j && StreamsText(beats[..n][i]) && forall k | i < k < j :: !beats[..n][k].Outside?;
      assert forall k | i < k < j :: !beats[k].Outside? by {
        forall k | i < k < j ensures !beats[k].Outside? {
          assert beats[..n][k] == beats[k];
        }
      }
    }
  }

  /** Every turn's text is shown exactly once, in its place, if and only if no turn that comes only
      whole follows a streamed one without an event of somebody else between them. */
  lemma TurnsShownOnce(beats: seq<Beat>)
    requires AreBeats(beats)
    ensures StreamOps(false, EventsOfAll(beats)).0 == WantedAll(beats) <==>
            !SomeHidden(beats)
  {
    ShownText(beats);
  }

  /** Such a stream: a turn that streams a text, then a turn whose text comes only whole. */
  lemma BareTurnLost(author: string, a: Bytes, b: Bytes)
    requires a != [] && b != []
    ensures var beats := [Streamed(author, [Said(a)], []), Bare(author, b, [])];
            AreBeats(beats) && StreamOps(false, EventsOfAll(beats)).0 != WantedAll(beats)
  {
    var beats := [Streamed(author, [Said(a)], []), Bare(author, b, [])];
    assert [Said(a)][..0] == [];
    assert Joint([Said(a)]) == [] + a == a;
    assert StreamsText(beats[0]);
    assert Hidden(beats, 1);
    TurnsShownOnce(beats);
  }

  function TextsOf(ops: seq<Op>): seq<Bytes> {
    if ops == [] then
      []
    else
      TextsOf(ops[..|ops| - 1]) + if ops[|ops| - 1].Text? then [ops[|ops| - 1].text] else []
  }

  lemma {:induction false} TextsOfConcat(a: seq<Op>, b: seq<Op>)
    ensures TextsOf(a + b) == TextsOf(a) + TextsOf(b)
  {
    if b == [] {
      assert a + b == a;
    } else {
      var all := a + b;
      assert all[..|all| - 1] == a + b[..|b| - 1];
      TextsOfConcat(a, b[..|b| - 1]);
    }
  }

  function PartTexts(parts: seq<Part>): seq<Bytes> {
    if parts == [] then
      []
    else
      PartTexts(parts[..|parts| - 1]) + if parts[|parts| - 1].text != [] then [parts[|parts| - 1].text] else []
  }

  /** Partial text is never suppressed, whatever came before it. */
  lemma {:induction false} PartialTextShown(streamed: bool, ev: Event, role: Role, parts: seq<Part>)
    requires ev.partial
    ensures TextsOf(PartsOps(streamed, ev, role, parts).0) == PartTexts(parts)
  {
    if parts != [] {
      var (ops, st) := PartsOps(streamed, ev, role, parts[..|parts| - 1]);
      var p := parts[|parts| - 1];
      PartialTextShown(streamed, ev, role, parts[..|parts| - 1]);
      TextsOfConcat(ops, PartOps(st, ev, role, p).0);
      PartTextShown(st, ev, role, p);
    }
  }

  lemma PartTextShown(streamed: bool, ev: Event, role: Role, p: Part)
    requires ev.partial
    ensures TextsOf(PartOps(streamed, ev, role, p).0) == if p.text != [] then [p.text] else []
  {
    var kind := if role.Thinking? then ThinkingDelta else TextDelta;
    assert TextsOf([Text(kind, ev.author, p.text)]) == [p.text] by {
      assert [Text(kind, ev.author, p.text)][..0] == [];
    }
    if p.text == [] || !role.Thinking? {
      var text := if p.text != [] then [Text(TextDelta, ev.author, p.text)] else [];
      assert PartOps(streamed, ev, role, p).0 == text + CallOps(ev.author, p);
      TextsOfConcat(text, CallOps(ev.author, p));
      CallOpsTextless(ev.author, p);
    }
  }

  lemma CallOpsTextless(author: string, p: Part)
    ensures TextsOf(CallOps(author, p)) == []
  {
    var call := if p.call.Some? then [Call(author, p.call.value)] else [];
    var response := if p.response.Some? then [Result(author, p.response.value)] else [];
    TextsOfConcat(call, response);
    assert p.call.Some? ==> call[..0] == [];
    assert p.response.Some? ==> response[..0] == [];
  }
}
