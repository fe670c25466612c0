/** What the retries do with transient errors, told by the producer's items and the transient test alone. */
module RetryTransient {
  import opened Basics
  import opened Retry

  predicate TransientAt(env: Env, items: seq<Item>, i: nat)
    requires i < |items|
  {
    items[i].err.Some? && env.transient(items[i].err.value)
  }

  predicate Clean(env: Env, items: seq<Item>) {
    forall i | 0 <= i < |items| :: !TransientAt(env, items, i)
  }

  /** A run breaks off at n: its first transient error comes there. */
  predicate BreaksAt(env: Env, items: seq<Item>, n: nat) {
    n < |items| && TransientAt(env, items, n) && Clean(env, items[..n])
  }

  predicate Silent(items: seq<Item>) {
    forall i | 0 <= i < |items| :: items[i].event.None?
  }

  // The specification's terms, in these terms.

  lemma CleanPart(env: Env, items: seq<Item>, a: nat, b: nat)
    requires Clean(env, items) && a <= b <= |items|
    ensures Clean(env, items[a..b])
  {
    forall i | 0 <= i < b - a ensures !TransientAt(env, items[a..b], i) {
      assert !TransientAt(env, items, a + i);
    }
  }

  lemma {:induction false} CleanIsUncut(env: Env, items: seq<Item>)
    requires Clean(env, items)
    ensures Until(env, items) == items
  {
    if items != [] {
      assert !TransientAt(env, items, 0);
      CleanPart(env, items, 1, |items|);
      assert items[1..|items|] == items[1..];
      CleanIsUncut(env, items[1..]);
    }
  }

  lemma {:induction false} BreakIsCut(env: Env, items: seq<Item>, n: nat)
    requires BreaksAt(env, items, n)
    ensures Until(env, items) == items[..n]
  {
    if n > 0 {
      var rest := items[1..];
      assert !TransientAt(env, items[..n], 0);
      CleanPart(env, items[..n], 1, n);
      assert items[..n][1..n] == rest[..n - 1];
      assert TransientAt(env, rest, n - 1) == TransientAt(env, items, n);
      BreakIsCut(env, rest, n - 1);
    }
  }

  /** Every run breaks off somewhere or is clean. */
  lemma {:induction false} CleanOrBreaks(env: Env, items: seq<Item>)
    ensures Clean(env, items) || exists n: nat :: BreaksAt(env, items, n)
  {
    if items != [] {
      var front := items[..|items| - 1];
      CleanOrBreaks(env, front);
      if Clean(env, front) {
        assert TransientAt(env, items, |items| - 1) ==> BreaksAt(env, items, |items| - 1);
        assert forall i | 0 <= i < |front| :: TransientAt(env, items, i) == TransientAt(env, front, i);
      } else {
        var n: nat :| BreaksAt(env, front, n);
        assert front[..n] == items[..n] && TransientAt(env, items, n) == TransientAt(env, front, n);
        assert BreaksAt(env, items, n);
      }
    }
  }

  lemma {:induction false} SilentHasNone(items: seq<Item>)
    ensures Silent(items) <==> Events(items) == []
  {
    if items != [] {
      SilentHasNone(items[..|items| - 1]);
    }
  }

  lemma CutExactly(env: Env, items: seq<Item>)
    ensures Cut(env, items) <==> exists n: nat :: BreaksAt(env, items, n)
    ensures Cut(env, items) <==> !Clean(env, items)
  {
    CleanOrBreaks(env, items);
    if Clean(env, items) {
      CleanIsUncut(env, items);
    }
    if n: nat :| BreaksAt(env, items, n) {
      BreakIsCut(env, items, n);
    }
  }

  /** Attempt k may be followed by another: it breaks off with nothing but eventless items before, a retry is
      left, and the pause is not cut short. */
  ghost predicate Retryable(env: Env, k: nat) {
    && k < env.maxRetries && env.pauses(k)
    && exists n: nat :: BreaksAt(env, env.runs(k), n) && Silent(env.runs(k)[..n])
  }

  lemma AgainExactly(env: Env, k: nat)
    ensures Again(env, k) <==> Retryable(env, k)
  {
    var run := env.runs(k);
    CutExactly(env, run);
    SilentHasNone(Until(env, run));
    forall n: nat | BreaksAt(env, run, n) ensures Until(env, run) == run[..n] {
      BreakIsCut(env, run, n);
    }
  }

  // What a call does.

  /** A first run without a transient error is all there is: one call, no announcement, every item handed on,
      errors of other kinds among them, to a consumer that does not stop. */
  lemma NoTransientNoRetry(env: Env)
    requires env.maxRetries >= 0 && Clean(env, env.runs(0))
    ensures Retried(env, 0, []) == Trace(Heard(env, [], env.runs(0)), [], 1)
  {
    CleanIsUncut(env, env.runs(0));
    AttemptForwards(env, env.runs(0), [], false);
  }

  /** Attempt j is made exactly when every attempt before it broke off like that, and the consumer accepted
      everything they offered. */
  lemma RetriedOnTransientExactly(env: Env, j: nat)
    requires env.maxRetries >= 0
    ensures Retried(env, 0, []).calls > j
            <==> (forall i | 0 <= i < j :: Retryable(env, i)) && !Refused(env, [], Lead(env, 0, j))
  {
    AttemptMadeExactly(env, 0, [], j);
    forall i: nat ensures Again(env, i) <==> Retryable(env, i) {
      AgainExactly(env, i);
    }
  }

  /** Of a run that breaks off at n the items before n are offered, and the error itself is not. */
  lemma LeadOffers(env: Env, k: nat, j: nat, n: nat)
    requires k < j && BreaksAt(env, env.runs(k), n)
    ensures Lead(env, k, j) == env.runs(k)[..n] + Lead(env, k + 1, j)
  {
    BreakIsCut(env, env.runs(k), n);
  }

  /** A clean run is offered whole, and ends the call. */
  lemma OffersClean(env: Env, k: nat)
    requires k <= env.maxRetries && Clean(env, env.runs(k))
    ensures Offered(env, k) == env.runs(k)
  {
    CutExactly(env, env.runs(k));
    CleanIsUncut(env, env.runs(k));
  }

  /** A run that breaks off at n is offered up to there. The error follows, wrapped, if something real was
      delivered or no retry is left; a pause cut short ends the call; and else the next run follows. */
  lemma OffersBroken(env: Env, k: nat, n: nat)
    requires k <= env.maxRetries && BreaksAt(env, env.runs(k), n)
    ensures var err := env.runs(k)[n].err.value;
            Offered(env, k) == env.runs(k)[..n]
              + if !Silent(env.runs(k)[..n]) then [Item(None, Some(AfterPartial(err)))]
                else if k == env.maxRetries then [Item(None, Some(Exhausted(env.maxRetries, err)))]
                else if !env.pauses(k) then [Item(None, Some(Canceled))]
                else Offered(env, k + 1)
  {
    BreakIsCut(env, env.runs(k), n);
    SilentHasNone(env.runs(k)[..n]);
    AgainExactly(env, k);
  }

  /** A transient error wrapped for good. */
  predicate Wrapped(item: Item) {
    && item.event.None? && item.err.Some?
    && (item.err.value.AfterPartial? || item.err.value.Exhausted? || item.err.value.Canceled?)
  }

  /** No transient error among the items, but for one wrapped at the end. */
  ghost predicate Withheld(env: Env, items: seq<Item>) {
    Clean(env, items) || (items != [] && Clean(env, items[..|items| - 1]) && Wrapped(items[|items| - 1]))
  }

  lemma CleanThen(env: Env, a: seq<Item>, b: seq<Item>)
    requires Clean(env, a) && Withheld(env, b)
    ensures Withheld(env, a + b)
  {
    CleanConcat(env, a, b);
    if b != [] {
      assert (a + b)[..|a + b| - 1] == a + b[..|b| - 1];
      CleanConcat(env, a, b[..|b| - 1]);
    }
  }

  lemma CleanConcat(env: Env, a: seq<Item>, b: seq<Item>)
    ensures Clean(env, a) && Clean(env, b) ==> Clean(env, a + b)
  {
    forall i | 0 <= i < |a + b|
      ensures TransientAt(env, a + b, i) == if i < |a| then TransientAt(env, a, i) else TransientAt(env, b, i - |a|)
    {
    }
  }

  lemma OneWrapped(env: Env, err: Error)
    requires err.AfterPartial? || err.Exhausted? || err.Canceled?
    ensures Withheld(env, [Item(None, Some(err))])
  {
    assert [Item(None, Some(err))][..0] == [];
  }

  lemma {:induction false} OfferedWithholds(env: Env, k: nat)
    ensures Withheld(env, Offered(env, k))
    decreases env.maxRetries - k
  {
    if k <= env.maxRetries {
      CleanOrBreaks(env, env.runs(k));
      if Clean(env, env.runs(k)) {
        OffersClean(env, k);
      } else {
        var n: nat :| BreaksAt(env, env.runs(k), n);
        OfferedWithholds(env, k + 1);
        BrokenWithholds(env, k, n);
      }
    }
  }

  lemma BrokenWithholds(env: Env, k: nat, n: nat)
    requires k <= env.maxRetries && BreaksAt(env, env.runs(k), n) && Withheld(env, Offered(env, k + 1))
    ensures Withheld(env, Offered(env, k))
  {
    var err := env.runs(k)[n].err.value;
    OffersBroken(env, k, n);
    OneWrapped(env, AfterPartial(err));
    OneWrapped(env, Exhausted(env.maxRetries, err));
    OneWrapped(env, Canceled);
    var lead := env.runs(k)[..n];
    CleanThen(env, lead, [Item(None, Some(AfterPartial(err)))]);
    CleanThen(env, lead, [Item(None, Some(Exhausted(env.maxRetries, err)))]);
    CleanThen(env, lead, [Item(None, Some(Canceled))]);
    CleanThen(env, lead, Offered(env, k + 1));
  }

  lemma WithheldPrefix(env: Env, items: seq<Item>, n: nat)
    requires n <= |items| && Withheld(env, items)
    ensures Withheld(env, items[..n])
  {
    if Clean(env, items) {
      CleanPart(env, items, 0, n);
    } else if n < |items| {
      CleanPart(env, items[..|items| - 1], 0, n);
      assert items[..|items| - 1][0..n] == items[..n];
    } else {
      assert items[..n] == items;
    }
  }

  lemma HeardPart(env: Env, items: seq<Item>)
    ensures var h := Heard(env, [], items); |h| <= |items| && h == items[..|h|]
  {
    NotAskedAgain(env, [], items);
    assert [] + items == items;
  }

  /** The consumer never gets a transient error as it was: at most one, wrapped, comes last. */
  lemma TransientWithheld(env: Env)
    ensures Withheld(env, Retried(env, 0, []).seen)
  {
    var seen, all := Retried(env, 0, []).seen, Offered(env, 0);
    HearsOffered(env, 0, []);
    HeardPart(env, all);
    OfferedWithholds(env, 0);
    WithheldPrefix(env, all, |seen|);
  }
}
