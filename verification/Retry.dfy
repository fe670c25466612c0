/** Retrying a run of events in front of a consumer that may stop listening at any item. */
module Retry {
  import opened Basics

  type Event = string

  datatype Error =
    | Raw(text: string)
    | AfterPartial(cause: Error)              // a transient error after something was delivered
    | Exhausted(retries: int, cause: Error)   // the last attempt failed too
    | Canceled                                // the pause before a retry was cut short

  /** What one step of a run hands on. */
  datatype Item = Item(event: Option<Event>, err: Option<Error>)

  /** The surroundings of one call: attempt k of the producer yields runs(k), the consumer answers
      wants(seen) once it has seen those items, and the k-th pause ends undisturbed when pauses(k). */
  datatype Env = Env(
    maxRetries: int,
    transient: Error -> bool,
    runs: nat -> seq<Item>,
    wants: seq<Item> -> bool,
    pauses: nat -> bool)
  {
    predicate Cuts(item: Item) {
      item.err.Some? && transient(item.err.value)
    }
  }

  // The specification

  datatype Attempt = Attempt(seen: seq<Item>, hadEvents: bool, err: Option<Error>, stopped: bool)

  /** One attempt, for a consumer that has seen these items already. */
  function Attempted(env: Env, items: seq<Item>, seen: seq<Item>, hadEvents: bool): Attempt {
    if items == [] then
      Attempt(seen, hadEvents, None, false)
    else if env.Cuts(items[0]) then
      Attempt(seen, hadEvents, items[0].err, false)
    else if !env.wants(seen + [items[0]]) then
      Attempt(seen + [items[0]], hadEvents, None, true)
    else
      Attempted(env, items[1..], seen + [items[0]], hadEvents || items[0].event.Some?)
  }

  /** What a whole call did: the items the consumer saw, the retry numbers announced, and how often the
      run function was called. */
  datatype Trace = Trace(seen: seq<Item>, announced: seq<int>, calls: nat)

  function Retried(env: Env, attempt: nat, seen: seq<Item>): Trace
    decreases env.maxRetries - attempt
  {
    if attempt > env.maxRetries then
      Trace(seen, [], 0)
    else
      var a := Attempted(env, env.runs(attempt), seen, false);
      if a.err.None? then
        Trace(a.seen, [], 1)
      else if a.hadEvents then
        Trace(a.seen + [Item(None, Some(AfterPartial(a.err.value)))], [], 1)
      else if attempt == env.maxRetries then
        Trace(a.seen + [Item(None, Some(Exhausted(env.maxRetries, a.err.value)))], [], 1)
      else if !env.pauses(attempt) then
        Trace(a.seen + [Item(None, Some(Canceled))], [attempt + 1], 1)
      else
        Added([attempt + 1], 1, Retried(env, attempt + 1, a.seen))
  }

  /** A trace after these earlier announcements and calls. */
  function Added(announced: seq<int>, calls: nat, t: Trace): Trace {
    Trace(t.seen, announced + t.announced, calls + t.calls)
  }

  lemma AddedLast(announced: seq<int>, calls: nat, seen: seq<Item>)
    ensures Added(announced, calls, Trace(seen, [], 1)) == Trace(seen, announced, calls + 1)
  {
    assert announced + [] == announced;
  }

  lemma AddedTwice(announced: seq<int>, calls: nat, n: int, t: Trace)
    ensures Added(announced, calls, Added([n], 1, t)) == Added(announced + [n], calls + 1, t)
  {
    assert announced + ([n] + t.announced) == announced + [n] + t.announced;
  }

  // The program

  class Consumer {
    const env: Env
    var seen: seq<Item>
    var stopped: bool

    constructor (env: Env)
      ensures this.env == env && seen == [] && !stopped
    {
      this.env, seen, stopped := env, [], false;
    }

    /** Never to be called again once it has answered false. */
    method Yield(item: Item) returns (more: bool)
      requires !stopped
      modifies this
      ensures seen == old(seen) + [item]
      ensures more == env.wants(seen) && stopped == !more
    {
      seen := seen + [item];
      more := env.wants(seen);
      stopped := !more;
    }
  }

  method RunAttempt(k: nat, consumer: Consumer) returns (hadEvents: bool, transientErr: Option<Error>)
    requires !consumer.stopped
    modifies consumer
    ensures Attempted(consumer.env, consumer.env.runs(k), old(consumer.seen), false)
         == Attempt(consumer.seen, hadEvents, transientErr, consumer.stopped)
    ensures transientErr.Some? ==> !consumer.stopped
  {
    var items := consumer.env.runs(k);
    hadEvents := false;
    var i := 0;
    while i < |items|
      invariant 0 <= i <= |items| && !consumer.stopped
      invariant Attempted(consumer.env, items, old(consumer.seen), false)
             == Attempted(consumer.env, items[i..], consumer.seen, hadEvents)
    {
      assert items[i..][1..] == items[i + 1..];
      if consumer.env.Cuts(items[i]) {
        return hadEvents, items[i].err;
      }
      var more := consumer.Yield(items[i]);
      if !more {
        return hadEvents, None;
      }
      if items[i].event.Some? {
        hadEvents := true;
      }
      i := i + 1;
    }
    return hadEvents, None;
  }

  method RetryLoop(consumer: Consumer) returns (announced: seq<int>, calls: nat)
    requires !consumer.stopped
    modifies consumer
    ensures Retried(consumer.env, 0, old(consumer.seen)) == Trace(consumer.seen, announced, calls)
  {
    var env := consumer.env;
    announced, calls := [], 0;
    var attempt := 0;
    while attempt <= env.maxRetries
      invariant attempt == calls && !consumer.stopped
      invariant Retried(env, 0, old(consumer.seen)) == Added(announced, calls, Retried(env, attempt, consumer.seen))
    {
      ghost var calls0 := calls;
      var hadEvents, transientErr := RunAttempt(attempt, consumer);
      calls := calls + 1;
      AddedLast(announced, calls0, consumer.seen);
      if transientErr.None? {
        return;
      }
      AddedLast(announced, calls0, consumer.seen + [Item(None, Some(AfterPartial(transientErr.value)))]);
      AddedLast(announced, calls0, consumer.seen + [Item(None, Some(Exhausted(env.maxRetries, transientErr.value)))]);
      if hadEvents {
        var _ := consumer.Yield(Item(None, Some(AfterPartial(transientErr.value))));
        return;
      }
      if attempt < env.maxRetries {
        AddedTwice(announced, calls0, attempt + 1, Retried(env, attempt + 1, consumer.seen));
        announced := announced + [attempt + 1];
        if !env.pauses(attempt) {
          var _ := consumer.Yield(Item(None, Some(Canceled)));
          return;
        }
        attempt := attempt + 1;
        continue;
      }
      var _ := consumer.Yield(Item(None, Some(Exhausted(env.maxRetries, transientErr.value))));
      return;
    }
  }

  // What the consumer can rely on

  /** The events among items: the real ones, without errors that come alone. */
  function Events(items: seq<Item>): seq<Event> {
    if items == [] then
      []
    else
      Events(items[..|items| - 1])
      + if items[|items| - 1].event.Some? then [items[|items| - 1].event.value] else []
  }

  lemma {:induction false} EventsConcat(a: seq<Item>, b: seq<Item>)
    ensures Events(a + b) == Events(a) + Events(b)
  {
    if b == [] {
      assert a + b == a;
    } else {
      assert (a + b)[..|a + b| - 1] == a + b[..|b| - 1];
      EventsConcat(a, b[..|b| - 1]);
    }
  }

  lemma EventsHead(item: Item, rest: seq<Item>)
    ensures Events([item] + rest) == (if item.event.Some? then [item.event.value] else []) + Events(rest)
  {
    EventsConcat([item], rest);
    assert [item][..0] == [];
  }

  /** A run up to, and without, the transient error that cuts it short. */
  function Until(env: Env, items: seq<Item>): (u: seq<Item>)
    ensures |u| <= |items|
    ensures |u| < |items| ==> env.Cuts(items[|u|])
  {
    if items == [] || env.Cuts(items[0]) then [] else [items[0]] + Until(env, items[1..])
  }

  lemma {:induction false} UntilIsPrefix(env: Env, items: seq<Item>)
    ensures Until(env, items) == items[..|Until(env, items)|]
  {
    if items != [] && !env.Cuts(items[0]) {
      UntilIsPrefix(env, items[1..]);
    }
  }

  predicate Cut(env: Env, items: seq<Item>) {
    |Until(env, items)| < |items|
  }

  /** What the consumer has seen once these items were offered one by one: up to the first it refuses to
      go on after. */
  function Heard(env: Env, seen: seq<Item>, items: seq<Item>): seq<Item>
    decreases |items|
  {
    if items == [] then seen
    else if !env.wants(seen + [items[0]]) then seen + [items[0]]
    else Heard(env, seen + [items[0]], items[1..])
  }

  predicate Refused(env: Env, seen: seq<Item>, items: seq<Item>)
    decreases |items|
  {
    items != [] && (!env.wants(seen + [items[0]]) || Refused(env, seen + [items[0]], items[1..]))
  }

  lemma HeadMoves<T>(seen: seq<T>, items: seq<T>)
    requires items != []
    ensures seen + items == seen + [items[0]] + items[1..]
  {
  }

  /** A refusal comes at the last item taken and not before: the consumer is asked again only while it
      has always said yes. */
  lemma {:induction false} NotAskedAgain(env: Env, seen: seq<Item>, items: seq<Item>)
    ensures var h := Heard(env, seen, items);
            && seen <= h <= seen + items
            && (forall i | |seen| < i < |h| :: env.wants(h[..i]))
            && (if Refused(env, seen, items) then |h| > |seen| && !env.wants(h)
                else h == seen + items && (|h| > |seen| ==> env.wants(h)))
    decreases |items|
  {
    if items != [] {
      var seen' := seen + [items[0]];
      HeadMoves(seen, items);
      if env.wants(seen') {
        NotAskedAgain(env, seen', items[1..]);
        var h := Heard(env, seen', items[1..]);
        assert h[..|seen'|] == seen';
      }
    }
  }

  lemma {:induction false} HeardConcat(env: Env, seen: seq<Item>, a: seq<Item>, b: seq<Item>)
    ensures Refused(env, seen, a + b) <==> Refused(env, seen, a) || Refused(env, seen + a, b)
    ensures Heard(env, seen, a + b) == if Refused(env, seen, a) then Heard(env, seen, a) else Heard(env, seen + a, b)
    ensures !Refused(env, seen, a) ==> Heard(env, seen, a) == seen + a
    decreases |a|
  {
    if a == [] {
      assert a + b == b && seen + a == seen;
    } else {
      var seen' := seen + [a[0]];
      assert (a + b)[1..] == a[1..] + b;
      HeadMoves(seen, a);
      HeardConcat(env, seen', a[1..], b);
    }
  }

  lemma {:induction false} AttemptIsHeard(env: Env, items: seq<Item>, seen: seq<Item>, had: bool)
    ensures var a, u := Attempted(env, items, seen, had), Until(env, items);
            a.seen == Heard(env, seen, u) && a.stopped == Refused(env, seen, u)
  {
    if items != [] && !env.Cuts(items[0]) && env.wants(seen + [items[0]]) {
      AttemptIsHeard(env, items[1..], seen + [items[0]], had || items[0].event.Some?);
    }
  }

  lemma {:induction false} AttemptReports(env: Env, items: seq<Item>, seen: seq<Item>, had: bool)
    ensures var a, u := Attempted(env, items, seen, had), Until(env, items);
            if a.stopped then
              a.err.None?
            else
              && a.err == (if Cut(env, items) then items[|u|].err else None)
              && a.hadEvents == (had || Events(u) != [])
  {
    if items != [] && !env.Cuts(items[0]) {
      AttemptReports(env, items[1..], seen + [items[0]], had || items[0].event.Some?);
      EventsHead(items[0], Until(env, items[1..]));
    }
  }

  /** An attempt offers its run up to the transient error, and reports that error, and whether there was
      an event before it, to a consumer that took everything. */
  lemma AttemptForwards(env: Env, items: seq<Item>, seen: seq<Item>, had: bool)
    ensures var a, u := Attempted(env, items, seen, had), Until(env, items);
            && a.seen == Heard(env, seen, u)
            && a.stopped == Refused(env, seen, u)
            && (a.stopped ==> a.err.None?)
            && (!a.stopped ==> a.err == if Cut(env, items) then items[|u|].err else None)
            && (!a.stopped ==> a.hadEvents == (had || Events(u) != []))
  {
    AttemptIsHeard(env, items, seen, had);
    AttemptReports(env, items, seen, had);
  }

  /** Attempt k fails before any event, with a retry left and an undisturbed pause. */
  predicate Again(env: Env, k: nat) {
    && k < env.maxRetries && env.pauses(k)
    && Cut(env, env.runs(k)) && Events(Until(env, env.runs(k))) == []
  }

  /** The error yielded last when attempt k is the last one. */
  function Verdict(env: Env, k: nat): (tail: seq<Item>)
    ensures |tail| <= 1 && forall i | 0 <= i < |tail| :: tail[i].event.None?
  {
    var u := Until(env, env.runs(k));
    if !Cut(env, env.runs(k)) then
      []
    else
      var err := env.runs(k)[|u|].err.value;
      if Events(u) != [] then [Item(None, Some(AfterPartial(err)))]
      else if k == env.maxRetries then [Item(None, Some(Exhausted(env.maxRetries, err)))]
      else [Item(None, Some(Canceled))]
  }

  /** What a consumer that never stops is offered from attempt k on. */
  function Offered(env: Env, k: nat): seq<Item>
    decreases env.maxRetries - k
  {
    if k > env.maxRetries then []
    else Until(env, env.runs(k)) + if Again(env, k) then Offered(env, k + 1) else Verdict(env, k)
  }

  /** A call goes on to attempt k + 1, or ends with attempt k. */
  lemma RetriedUnrolled(env: Env, k: nat, seen: seq<Item>)
    requires k <= env.maxRetries
    ensures var u, t := Until(env, env.runs(k)), Retried(env, k, seen);
            if Again(env, k) && !Refused(env, seen, u) then
              t == Added([k + 1], 1, Retried(env, k + 1, seen + u))
            else
              && t.calls == 1
              && t.seen == (if Refused(env, seen, u) then Heard(env, seen, u) else seen + u + Verdict(env, k))
              && t.announced == if !Refused(env, seen, u) && Verdict(env, k) == [Item(None, Some(Canceled))]
                                then [k + 1] else []
  {
    var u := Until(env, env.runs(k));
    AttemptForwards(env, env.runs(k), seen, false);
    HeardConcat(env, seen, u, []);
  }

  lemma HeardOne(env: Env, seen: seq<Item>, items: seq<Item>)
    requires |items| <= 1
    ensures Heard(env, seen, items) == seen + items
  {
    if items != [] {
      assert items == [items[0]];
    }
  }

  /** A consumer that may stop hears what one that never stops is offered, cut after its first refusal. */
  lemma {:induction false} HearsOffered(env: Env, k: nat, seen: seq<Item>)
    ensures Retried(env, k, seen).seen == Heard(env, seen, Offered(env, k))
    decreases env.maxRetries - k
  {
    if k <= env.maxRetries {
      var u := Until(env, env.runs(k));
      RetriedUnrolled(env, k, seen);
      HeardConcat(env, seen, u, if Again(env, k) then Offered(env, k + 1) else Verdict(env, k));
      if !Refused(env, seen, u) {
        if Again(env, k) {
          HearsOffered(env, k + 1, seen + u);
        } else {
          HeardOne(env, seen + u, Verdict(env, k));
        }
      }
    }
  }

  /** Over a whole call, yield is never called again after it answered false. */
  lemma NeverAskedAfterRefusal(env: Env, i: nat)
    requires 0 < i < |Retried(env, 0, []).seen|
    ensures env.wants(Retried(env, 0, []).seen[..i])
  {
    HearsOffered(env, 0, []);
    NotAskedAgain(env, [], Offered(env, 0));
  }

  /** What the attempts from k to j - 1 offer before they fail. */
  function Lead(env: Env, k: nat, j: nat): seq<Item>
    requires k <= j
    decreases j - k
  {
    if k == j then [] else Until(env, env.runs(k)) + Lead(env, k + 1, j)
  }

  /** Attempt j is made exactly when every attempt before it failed before any event, with a retry left
      and an undisturbed pause, and the consumer accepted everything those attempts offered. */
  lemma {:induction false} AttemptMadeExactly(env: Env, k: nat, seen: seq<Item>, j: nat)
    requires k <= j && k <= env.maxRetries
    ensures Retried(env, k, seen).calls > j - k
            <==> (forall i | k <= i < j :: Again(env, i)) && !Refused(env, seen, Lead(env, k, j))
    decreases j - k
  {
    if k < j {
      var u := Until(env, env.runs(k));
      RetriedUnrolled(env, k, seen);
      HeardConcat(env, seen, u, Lead(env, k + 1, j));
      if Again(env, k) && !Refused(env, seen, u) {
        AttemptMadeExactly(env, k + 1, seen + u, j);
      }
    }
  }

  /** The run function is called at most maxRetries + 1 times, and not at all for a negative limit; every
      retry is announced once, in order; one more is announced only when its pause is cut short. */
  lemma {:induction false} CallsAndNotices(env: Env, k: nat, seen: seq<Item>)
    requires k <= env.maxRetries + 1
    ensures var t := Retried(env, k, seen);
            && t.calls <= env.maxRetries + 1 - k
            && (t.calls == 0 <==> k > env.maxRetries)
            && (forall i | 0 <= i < |t.announced| :: t.announced[i] == k + i + 1)
            && (t.calls > 0 && |t.announced| != t.calls - 1 ==>
                && |t.announced| == t.calls && !env.pauses(k + t.calls - 1)
                && t.seen != [] && t.seen[|t.seen| - 1] == Item(None, Some(Canceled)))
    decreases env.maxRetries - k
  {
    if k <= env.maxRetries {
      var u := Until(env, env.runs(k));
      RetriedUnrolled(env, k, seen);
      if Again(env, k) && !Refused(env, seen, u) {
        CallsAndNotices(env, k + 1, seen + u);
      }
    }
  }

  lemma EventsPrefix(items: seq<Item>, n: nat)
    requires n <= |items|
    ensures Events(items[..n]) <= Events(items)
  {
    assert items == items[..n] + items[n..];
    EventsConcat(items[..n], items[n..]);
  }

  /** What was seen after a start has events of the run only, and of it a prefix. */
  predicate PrefixOf(run: seq<Item>, start: seq<Item>, seen: seq<Item>) {
    start <= seen && Events(seen[|start|..]) <= Events(run)
  }

  /** From attempt k on, the events delivered come from the last attempt made and are a prefix of its run. */
  predicate FromLast(env: Env, k: nat, seen: seq<Item>, t: Trace) {
    t.calls > 0 && PrefixOf(env.runs(k + t.calls - 1), seen, t.seen)
  }

  /** The events the consumer gets all come from the last attempt made, and are a prefix of that run's:
      nothing is delivered from a run and then replayed. */
  lemma {:induction false} OneAttemptDelivers(env: Env, k: nat, seen: seq<Item>)
    requires k <= env.maxRetries
    ensures FromLast(env, k, seen, Retried(env, k, seen))
    decreases env.maxRetries - k
  {
    var u := Until(env, env.runs(k));
    RetriedUnrolled(env, k, seen);
    if Again(env, k) && !Refused(env, seen, u) {
      OneAttemptDelivers(env, k + 1, seen + u);
      LaterDelivers(env, k, seen, u, Retried(env, k + 1, seen + u));
    } else {
      LastAttemptDelivers(env, k, seen);
    }
  }

  lemma LaterDelivers(env: Env, k: nat, seen: seq<Item>, lead: seq<Item>, t: Trace)
    requires Events(lead) == [] && FromLast(env, k + 1, seen + lead, t)
    ensures FromLast(env, k, seen, Added([k + 1], 1, t))
  {
    PrefixAfterLead(env.runs(k + t.calls), seen, lead, t.seen);
  }

  lemma LastAttemptDelivers(env: Env, k: nat, seen: seq<Item>)
    requires k <= env.maxRetries && !(Again(env, k) && !Refused(env, seen, Until(env, env.runs(k))))
    ensures Retried(env, k, seen).calls == 1 && PrefixOf(env.runs(k), seen, Retried(env, k, seen).seen)
  {
    var u := Until(env, env.runs(k));
    RetriedUnrolled(env, k, seen);
    if Refused(env, seen, u) {
      HeardIsPrefix(env, seen, env.runs(k));
    } else {
      UntilIsPrefix(env, env.runs(k));
      PrefixAtEnd(env.runs(k), seen, |u|, Verdict(env, k));
    }
  }

  /** What is heard of a run is a prefix of it. */
  lemma HeardIsPrefix(env: Env, seen: seq<Item>, items: seq<Item>)
    ensures PrefixOf(items, seen, Heard(env, seen, Until(env, items)))
  {
    var u := Until(env, items);
    var h := Heard(env, seen, u);
    var n := |h| - |seen|;
    UntilIsPrefix(env, items);
    NotAskedAgain(env, seen, u);
    assert u[..n] == items[..n];
    PrefixAtEnd(items, seen, n, []);
    assert h == seen + items[..n] + [];
  }

  lemma PrefixAfterLead(run: seq<Item>, start: seq<Item>, lead: seq<Item>, seen: seq<Item>)
    requires Events(lead) == [] && PrefixOf(run, start + lead, seen)
    ensures PrefixOf(run, start, seen)
  {
    var rest := seen[|start + lead|..];
    assert seen == start + lead + rest;
    assert seen[|start|..] == lead + rest;
    EventsConcat(lead, rest);
  }

  lemma PrefixAtEnd(run: seq<Item>, start: seq<Item>, n: nat, tail: seq<Item>)
    requires n <= |run| && |tail| <= 1 && forall i | 0 <= i < |tail| :: tail[i].event.None?
    ensures PrefixOf(run, start, start + run[..n] + tail)
  {
    var seen := start + run[..n] + tail;
    assert seen[|start|..] == run[..n] + tail;
    EventsConcat(run[..n], tail);
    EventsPrefix(run, n);
    assert tail != [] ==> Events(tail[..|tail| - 1]) == [];
    assert Events(tail) == [];
  }

  predicate FailsAtOnce(env: Env, items: seq<Item>) {
    items != [] && env.Cuts(items[0])
  }

  /** Nothing at all has been delivered when attempt j starts exactly when every earlier attempt began
      with its transient error. */
  lemma {:induction false} SilentBefore(env: Env, k: nat, j: nat)
    requires k <= j && forall i | k <= i < j :: Again(env, i)
    ensures Lead(env, k, j) == [] <==> forall i | k <= i < j :: FailsAtOnce(env, env.runs(i))
    decreases j - k
  {
    if k < j {
      SilentBefore(env, k + 1, j);
      assert Again(env, k);
      assert Until(env, env.runs(k)) == [] <==> FailsAtOnce(env, env.runs(k));
      assert FailsAtOnce(env, env.runs(k)) && (forall i | k + 1 <= i < j :: FailsAtOnce(env, env.runs(i)))
        ==> forall i | k <= i < j :: FailsAtOnce(env, env.runs(i));
    }
  }

  /** An error that comes without an event does not count as delivered: the consumer gets it twice. */
  lemma ErrorDeliveredTwice()
    ensures var bare, lost := Item(None, Some(Raw("bad"))), Item(None, Some(Raw("lost")));
            exists env: Env ::
              && env.maxRetries == 1
              && Retried(env, 0, []).seen == [bare, bare, Item(None, Some(Exhausted(1, Raw("lost"))))]
  {
    var bare, lost := Item(None, Some(Raw("bad"))), Item(None, Some(Raw("lost")));
    var env := Env(1, e => e == Raw("lost"), k => [bare, lost], seen => true, k => true);
    var run := [bare, lost];
    assert run[1..] == [lost];
    assert Attempted(env, run, [], false) == Attempt([bare], false, lost.err, false);
    assert Attempted(env, run, [bare], false) == Attempt([bare, bare], false, lost.err, false);
    assert Retried(env, 1, [bare]).seen == [bare, bare] + [Item(None, Some(Exhausted(1, Raw("lost"))))];
  }
}
