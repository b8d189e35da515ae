/**
 * When a re-INVITE is sent a second time (engine/dialog.go, engine/timers.go): the law over every run of the two
 * ends, and a run in which both back off and one of them then succeeds.
 */
module HoldRetry {
  import opened Options
  import opened Sdp
  import opened Hold

  /* ---- What happened in the run ---- */

  /** The refusal of a request of `side` comes back. */
  predicate Refused(s: State, side: Side, e: Event)
    requires Enabled(s, e)
  {
    e == Complete(side) && !IsSuccess(s.Get(side).wire.code)
  }

  predicate Collides(s: State, side: Side, e: Event)
    requires Enabled(s, e)
  {
    Refused(s, side, e) && s.Get(side).wire.code == 491
  }

  /** How many requests of `side` were refused with 491. */
  function Collisions(s: State, side: Side, run: seq<Event>): nat
    requires ValidRun(s, run)
    decreases |run|
  {
    if run == [] then 0
    else (if Collides(s, side, run[0]) then 1 else 0) + Collisions(Next(s, run[0]), side, run[1..])
  }

  /** One was refused with another code. */
  predicate RefusedOtherwise(s: State, side: Side, run: seq<Event>)
    requires ValidRun(s, run)
    decreases |run|
  {
    && run != []
    && ((Refused(s, side, run[0]) && !Collides(s, side, run[0])) || RefusedOtherwise(Next(s, run[0]), side, run[1..]))
  }

  /** How many requests `side` sent after a backoff. */
  function Retries(side: Side, run: seq<Event>): nat {
    if run == [] then 0 else (if run[0] == Retry(side) then 1 else 0) + Retries(side, run[1..])
  }

  /* ---- The law ---- */

  /**
   * One call of Hold, Unhold or a refresh after c collisions and k retries; other says whether there was another
   * refusal.
   */
  ghost predicate Trace(p: Party, before: seq<bool>, want: Direction, refresh: bool, c: nat, k: nat, other: bool) {
    match p.phase
    case Waiting(_, d, attempt, r) =>
      p.results == before && d == want && r == refresh && !other && c == k == attempt && k <= if refresh then 0 else 1
    case Backoff(d) => p.results == before && d == want && !refresh && !other && c == 1 && k == 0
    case Idle =>
      || (p.results == before + [true] && !other && c == k && k <= if refresh then 0 else 1)
      || (p.results == before + [false] && other && c == k && k <= (if refresh then 0 else 1) && (refresh ==> p.ended))
      || (p.results == before + [false] && !other && c == k + 1 && k == (if refresh then 0 else 1)
          && (refresh ==> p.ended))
  }

  lemma TraceStep(s: State, e: Event, side: Side, before: seq<bool>, want: Direction, refresh: bool,
                  c: nat, k: nat, other: bool)
    requires Enabled(s, e) && !s.Get(side).phase.Idle? && Trace(s.Get(side), before, want, refresh, c, k, other)
    ensures Trace(Next(s, e).Get(side), before, want, refresh,
                  c + (if Collides(s, side, e) then 1 else 0), k + (if e == Retry(side) then 1 else 0),
                  other || (Refused(s, side, e) && !Collides(s, side, e)))
  {
    if e.side != side {
      LockKeepsPeerOut(s, side, e);
    }
  }

  lemma {:induction false} TraceRun(s: State, side: Side, run: seq<Event>, before: seq<bool>, want: Direction,
                                    refresh: bool, c: nat, k: nat, other: bool)
    requires HeldRun(s, side, run) && Trace(s.Get(side), before, want, refresh, c, k, other)
    ensures ValidRun(s, run)
    ensures Trace(After(s, run).Get(side), before, want, refresh, c + Collisions(s, side, run), k + Retries(side, run),
                  other || RefusedOtherwise(s, side, run))
    decreases |run|
  {
    hide Trace, Next, Enabled, Refused, Collides;
    HeldRunValid(s, side, run);
    if run != [] {
      var e := run[0];
      TraceStep(s, e, side, before, want, refresh, c, k, other);
      TraceRun(Next(s, e), side, run[1..], before, want, refresh,
               c + (if Collides(s, side, e) then 1 else 0), k + (if e == Retry(side) then 1 else 0),
               other || (Refused(s, side, e) && !Collides(s, side, e)));
    }
  }

  /**
   * One call of Hold or Unhold, whatever the peer does meanwhile: a second request goes out exactly when the first
   * one is refused with 491, with the same direction and never a third time; and the call returns false exactly
   * after a refusal with another code or after a second 491.
   */
  lemma RetriedExactlyAfter491(s0: State, side: Side, want: Direction, run: seq<Event>)
    requires Enabled(s0, Begin(side, want)) && HeldRun(Next(s0, Begin(side, want)), side, run)
    ensures ValidRun(Next(s0, Begin(side, want)), run)
    ensures var s1 := Next(s0, Begin(side, want));
            var p, before := After(s1, run).Get(side), s0.Get(side).results;
            var collisions, other := Collisions(s1, side, run), RefusedOtherwise(s1, side, run);
            && Retries(side, run) <= 1 && collisions <= 2
            && (p.phase.Waiting? ==> p.phase.want == want)
            && (p.phase.Backoff? ==> collisions == 1 && Retries(side, run) == 0)
            && (!p.phase.Backoff? ==> Retries(side, run) == if collisions > 0 then 1 else 0)
            && (p.phase.Idle? ==> p.results == before + [!(other || collisions == 2)])
  {
    hide HeldRun;
    var s1 := Next(s0, Begin(side, want));
    TraceRun(s1, side, run, s0.Get(side).results, want, false, 0, 0, false);
    ResultsDiffer(s0.Get(side).results);
  }

  /** A session refresh is never sent again: any refusal, 491 too, hangs up. */
  lemma RefreshIsNotRetried(s0: State, side: Side, run: seq<Event>)
    requires Enabled(s0, Refresh(side)) && HeldRun(Next(s0, Refresh(side)), side, run)
    ensures ValidRun(Next(s0, Refresh(side)), run)
    ensures var s1 := Next(s0, Refresh(side));
            var p, before := After(s1, run).Get(side), s0.Get(side).results;
            var refused := Collisions(s1, side, run) > 0 || RefusedOtherwise(s1, side, run);
            && Retries(side, run) == 0
            && (p.phase.Idle? ==> p.results == before + [!refused] && (refused ==> p.ended))
  {
    hide HeldRun;
    var s1 := Next(s0, Refresh(side));
    TraceRun(s1, side, run, s0.Get(side).results, s0.Get(side).media.dir, true, 0, 0, false);
    ResultsDiffer(s0.Get(side).results);
  }

  /* ---- A run with both ends in backoff ---- */

  lemma ThenRun(s: State, a: seq<Event>, b: seq<Event>, t: State, u: State)
    requires ValidRun(s, a) && After(s, a) == t && ValidRun(t, b) && After(t, b) == u
    ensures ValidRun(s, a + b) && After(s, a + b) == u
  {
    AfterConcat(s, a, b);
  }

  /** p waits for the response to its request. */
  predicate Sent(p: Party, before: Party, want: Direction, attempt: nat) {
    && p.phase == Waiting(before.media.dir, want, attempt, false) && p.wire.Request?
    && p.results == before.results && p.ended == before.ended && p.media.codec == before.media.codec
  }

  predicate Backing(p: Party, before: Party, want: Direction) {
    && p.phase == Backoff(want) && p.wire.Quiet?
    && p.results == before.results && p.ended == before.ended && p.media.codec == before.media.codec
  }

  lemma OffersCross(s: State, want: Direction, want2: Direction)
    requires Quiescent(s)
    ensures Enabled(s, Begin(A, want)) && Enabled(Next(s, Begin(A, want)), Begin(B, want2))
    ensures var t := Next(Next(s, Begin(A, want)), Begin(B, want2));
            Sent(t.a, s.a, want, 0) && Sent(t.b, s.b, want2, 0) && t.log == s.log
  {}

  /** A request that meets a locked peer comes back with 491. */
  lemma MeetsLock(s: State, side: Side)
    requires var p, q := s.Get(side), s.Get(side.Other());
             p.wire.Request? && p.phase.Waiting? && !q.phase.Idle? && !q.ended && q.media.codec.Some?
    ensures Enabled(s, Deliver(side))
    ensures var t := Next(s, Deliver(side));
            && t.Get(side) == s.Get(side).(wire := Final(491, None)) && t.Get(side.Other()) == s.Get(side.Other())
            && t.log == s.log
  {}

  lemma BacksOff(s: State, side: Side, before: Party, want: Direction)
    requires Sent(s.Get(side).(wire := Request(Description([], 0, want, None))), before, want, 0)
    requires s.Get(side).wire == Final(491, None)
    ensures Enabled(s, Complete(side))
    ensures var t := Next(s, Complete(side));
            Backing(t.Get(side), before, want) && t.Get(side.Other()) == s.Get(side.Other()) && t.log == s.log
  {}

  lemma BothBackOff(s: State, want: Direction, want2: Direction)
    requires Quiescent(s) && s.a.media.codec.Some? && s.b.media.codec.Some?
    ensures var run := [Begin(A, want), Begin(B, want2), Deliver(A)] + [Deliver(B), Complete(A), Complete(B)];
            && ValidRun(s, run)
            && var t := After(s, run); Backing(t.a, s.a, want) && Backing(t.b, s.b, want2) && t.log == s.log
  {
    OffersCross(s, want, want2);
    var s2 := Next(Next(s, Begin(A, want)), Begin(B, want2));
    MeetsLock(s2, A);
    var s3 := Next(s2, Deliver(A));
    MeetsLock(s3, B);
    var s4 := Next(s3, Deliver(B));
    BacksOff(s4, A, s.a, want);
    var s5 := Next(s4, Complete(A));
    BacksOff(s5, B, s.b, want2);
    var s6 := Next(s5, Complete(B));
    hide Next, Enabled, Backing, Sent;
    ThreeSteps(s, Begin(A, want), Begin(B, want2), Deliver(A));
    ThreeSteps(s3, Deliver(B), Complete(A), Complete(B));
    ThenRun(s, [Begin(A, want), Begin(B, want2), Deliver(A)], [Deliver(B), Complete(A), Complete(B)], s3, s6);
  }

  function RetryRun(side: Side): seq<Event> { [Retry(side), Deliver(side), Complete(side)] }

  /** A retry while the other end still backs off is refused again, and that is the end of it. */
  lemma RetryMeetsLock(s: State, side: Side)
    requires s.Get(side).phase.Backoff? && s.Get(side.Other()).phase.Backoff? && !s.Get(side.Other()).ended
    requires s.Get(side.Other()).media.codec.Some?
    ensures ValidRun(s, RetryRun(side))
    ensures var t := After(s, RetryRun(side));
            var p := t.Get(side);
            && p.phase.Idle? && p.wire.Quiet? && p.results == s.Get(side).results + [false]
            && p.ended == s.Get(side).ended && p.media.codec == s.Get(side).media.codec
            && t.Get(side.Other()) == s.Get(side.Other()) && t.log == s.log
  {
    var s1 := Next(s, Retry(side));
    MeetsLock(s1, side);
    var s2 := Next(s1, Deliver(side));
    assert Enabled(s2, Complete(side));
    ThreeSteps(s, Retry(side), Deliver(side), Complete(side));
    hide ValidRun, After;
  }

  /** A retry that finds the other end idle is accepted. */
  lemma RetrySucceeds(s: State, side: Side)
    requires s.Get(side).phase.Backoff? && !s.Get(side).ended
    requires var q := s.Get(side.Other()); q.phase.Idle? && q.wire.Quiet? && !q.ended && q.media.codec.Some?
    ensures ValidRun(s, RetryRun(side))
    ensures var t := After(s, RetryRun(side));
            && Quiescent(t) && t.Get(side).results == s.Get(side).results + [true]
            && t.Get(side.Other()).results == s.Get(side.Other()).results
            && t.log == s.log + [Exchange(side, s.Get(side).phase.again)]
  {
    var s1 := Next(s, Retry(side));
    RetryAccepted(s1, side);
    var s2 := Next(s1, Deliver(side));
    ExchangeCompleted(s2, side);
    ThreeSteps(s, Retry(side), Deliver(side), Complete(side));
    hide ValidRun, After;
  }

  lemma RetryAccepted(s: State, side: Side)
    requires s.Get(side).phase.Waiting? && s.Get(side).wire.Request? && !s.Get(side).ended
    requires var q := s.Get(side.Other()); q.phase.Idle? && q.wire.Quiet? && !q.ended && q.media.codec.Some?
    ensures Enabled(s, Deliver(side))
    ensures var t := Next(s, Deliver(side));
            var p, q := t.Get(side), t.Get(side.Other());
            && p.phase == s.Get(side).phase && p.results == s.Get(side).results && !p.ended
            && p.wire.Final? && p.wire.code == 200
            && q.phase.Idle? && q.wire.Quiet? && !q.ended && q.results == s.Get(side.Other()).results
            && t.log == s.log + [Exchange(side, p.phase.want)]
  {}

  /**
   * Both ends hold at once, both are refused and back off; the first to retry is refused again, the second one
   * holds.
   */
  lemma GlareIsResolved(s0: State)
    requires Fresh(s0) && !s0.a.ended && !s0.b.ended
    ensures var glare := [Begin(A, SendOnly), Begin(B, SendOnly), Deliver(A)] + [Deliver(B), Complete(A), Complete(B)];
            && ValidRun(s0, glare)
            && var s := After(s0, glare);
               && s.a.phase == s.b.phase == Backoff(SendOnly)
               && ValidRun(s0, glare + (RetryRun(A) + RetryRun(B)))
               && var t := After(s0, glare + (RetryRun(A) + RetryRun(B)));
                  Quiescent(t) && t.a.results == [false] && t.b.results == [true] && t.log == [Exchange(B, SendOnly)]
  {
    var glare := [Begin(A, SendOnly), Begin(B, SendOnly), Deliver(A)] + [Deliver(B), Complete(A), Complete(B)];
    BothBackOff(s0, SendOnly, SendOnly);
    var s := After(s0, glare);
    hide ValidRun, After, Quiescent;
    RetryMeetsLock(s, A);
    var t := After(s, RetryRun(A));
    RetrySucceeds(t, B);
    var u := After(t, RetryRun(B));
    hide RetryRun;
    ThenRun(s, RetryRun(A), RetryRun(B), t, u);
    ThenRun(s0, glare, RetryRun(A) + RetryRun(B), s, u);
  }
}
