/** The status and the ring time of a call, in terms of what happened to it (engine/call.go). */
module CallHistory {
  import opened Lifecycle

  /** The event whose finish is the first one. */
  predicate Ends(s: System, e: Event) {
    s.core.state != Ended && (e.OutgoingFinishes? || e.PeerEnds? || e.ByeFinishes?)
  }

  function StatusGiven(s: System, e: Event): nat
    requires Enabled(s, e)
  {
    match e
    case OutgoingFinishes => s.out.status
    case PeerEnds(status) => status
    case _ => 0
  }

  /** What the first finish was given. */
  function FinalStatus(s: System, run: seq<Event>): nat
    requires ValidRun(s, run)
    decreases |run|
  {
    if run == [] then 0
    else if Ends(s, run[0]) then StatusGiven(s, run[0])
    else FinalStatus(Next(s, run[0]), run[1..])
  }

  /** A call that is neither answered nor ended has no status yet. */
  ghost predicate Unset(s: System) {
    s.core.state != State.Ended && !s.core.answered ==> s.core.status == 0
  }

  lemma StepSetsStatus(s: System, e: Event)
    requires CoreOk(s.core) && Unset(s) && Enabled(s, e)
    ensures CoreOk(Next(s, e).core) && Unset(Next(s, e))
    ensures var t := Next(s, e);
            && (s.core.state == Ended ==> t.core.state == Ended && t.core.status == s.core.status
                                          && t.core.answered == s.core.answered)
            && (Ends(s, e) ==> t.core.state == Ended && t.core.answered == s.core.answered)
            && (Ends(s, e) && !s.core.answered ==> t.core.status == StatusGiven(s, e))
            && (s.core.state != Ended && !Ends(s, e) ==> t.core.state != Ended)
            && (s.core.answered ==> t.core.answered)
  {
    CoreSteps(s.core, 0);
  }

  lemma {:induction false} RunSetsStatus(s: System, run: seq<Event>)
    requires CoreOk(s.core) && Unset(s) && ValidRun(s, run)
    ensures var t := After(s, run);
            && CoreOk(t.core) && (s.core.answered ==> t.core.answered)
            && (s.core.state == Ended ==> t.core.state == Ended && t.core.status == s.core.status)
            && (s.core.state != Ended && !t.core.answered ==>
                  t.core.status == if t.core.state == Ended then FinalStatus(s, run) else 0)
    decreases |run|
  {
    if run != [] {
      hide CoreOk, Next, Enabled, Ends, StatusGiven;
      StepSetsStatus(s, run[0]);
      RunSetsStatus(Next(s, run[0]), run[1..]);
    }
  }

  /**
   * The status of a call in every interleaving: 200 from its answer on, whatever comes later; without an answer
   * the one that the first of all finishing threads was given, and 0 until then.
   */
  lemma StatusOfCall(incoming: bool, run: seq<Event>)
    requires ValidRun(Start(incoming), run)
    ensures var t := After(Start(incoming), run);
            t.core.status == if t.core.answered then 200
                             else if t.core.state == Ended then FinalStatus(Start(incoming), run)
                             else 0
  {
    RunSetsStatus(Start(incoming), run);
    CallLifecycle(incoming, run);
  }

  /* ---- What runOutgoing gives ---- */

  /** For the result of the INVITE: 487 if it was cancelled, 0 after a 2xx, otherwise its code. */
  function ResultStatus(run: seq<Event>): nat {
    if run == [] then 0
    else if run[0].Result? then
      if IsSuccess(run[0].code) then 0 else if run[0].cancelled then 487 else run[0].code
    else ResultStatus(run[1..])
  }

  ghost predicate Gives(out: Outgoing, status: nat) {
    match out
    case Incoming => true
    case Inviting => true
    case Ending(s, acked, _) => s == if acked then 0 else status
    case Over(acked, _) => true
    case _ => status == 0
  }

  lemma {:induction false} RunGives(s: System, run: seq<Event>, status: nat)
    requires ValidRun(s, run) && Gives(s.out, status)
    ensures Gives(After(s, run).out, if s.out.Inviting? then ResultStatus(run) else status)
    decreases |run|
  {
    if run != [] {
      var e := run[0];
      StepGives(s, e, status);
      hide Next, Enabled, Gives;
      RunGives(Next(s, e), run[1..],
               if s.out.Inviting? then (if e.Result? then ResultStatus([e]) else 0) else status);
    }
  }

  lemma StepGives(s: System, e: Event, status: nat)
    requires Enabled(s, e) && Gives(s.out, status)
    ensures var t := Next(s, e);
            && Gives(t.out, if s.out.Inviting? then (if e.Result? then ResultStatus([e]) else 0) else status)
            && (t.out.Inviting? <==> s.out.Inviting? && !e.Result?)
            && (e.Result? ==> s.out.Inviting?)
  {}

  /**
   * The thread of an outgoing call ends it with the code of its INVITE, 487 after CANCEL, and without one after a
   * 2xx.
   */
  lemma OutgoingGivesResult(run: seq<Event>)
    requires ValidRun(Start(false), run) && After(Start(false), run).out.Ending?
    ensures var out := After(Start(false), run).out; out.status == if out.acked then 0 else ResultStatus(run)
  {
    RunGives(Start(false), run, 0);
  }

  /* ---- Ringing ---- */

  /** A ringing indication while the call was still being set up. */
  predicate RangIn(s: System, run: seq<Event>)
    requires ValidRun(s, run)
    decreases |run|
  {
    run != [] && ((run[0].Ring? && s.core.state == Calling) || RangIn(Next(s, run[0]), run[1..]))
  }

  lemma StepRings(s: System, e: Event)
    requires Enabled(s, e)
    ensures Next(s, e).core.rang <==> s.core.rang || (e.Ring? && s.core.state == Calling)
  {}

  lemma {:induction false} RunRings(s: System, run: seq<Event>)
    requires ValidRun(s, run)
    ensures After(s, run).core.rang <==> s.core.rang || RangIn(s, run)
    decreases |run|
  {
    if run != [] {
      hide Next, Enabled;
      StepRings(s, run[0]);
      RunRings(Next(s, run[0]), run[1..]);
    }
  }

  /** A call has a ring time exactly when it was told to ring before it was answered or ended. */
  lemma RangExactlyIf(incoming: bool, run: seq<Event>)
    requires ValidRun(Start(incoming), run)
    ensures After(Start(incoming), run).core.rang <==> RangIn(Start(incoming), run)
  {
    RunRings(Start(incoming), run);
  }

  /* ---- Hangup ---- */

  predicate FailsHangup(e: Event) { e.HangupTimesOut? || (e.ByeFinishes? && !e.ok) }

  function Hangups(run: seq<Event>): nat
    decreases |run|
  {
    if run == [] then 0 else (if run[0].HangupStarts? then 1 else 0) + Hangups(run[1..])
  }

  function FailedHangups(run: seq<Event>): nat
    decreases |run|
  {
    if run == [] then 0 else (if FailsHangup(run[0]) then 1 else 0) + FailedHangups(run[1..])
  }

  lemma StepAccountsForHangups(s: System, e: Event)
    requires Enabled(s, e)
    ensures var t := Next(s, e);
            s.waiting + s.byes + s.hungUp + (if e.HangupStarts? then 1 else 0)
            == t.waiting + t.byes + t.hungUp + (if FailsHangup(e) then 1 else 0)
  {}

  lemma {:induction false} RunAccountsForHangups(s: System, run: seq<Event>)
    requires ValidRun(s, run)
    ensures var t := After(s, run);
            s.waiting + s.byes + s.hungUp + Hangups(run) == t.waiting + t.byes + t.hungUp + FailedHangups(run)
    decreases |run|
  {
    if run != [] {
      hide Next, Enabled;
      StepAccountsForHangups(s, run[0]);
      RunAccountsForHangups(Next(s, run[0]), run[1..]);
    }
  }

  /**
   * Every Hangup waits for the call to be answered or to end, waits for its BYE, has returned true, or has failed
   * because the time was up or its BYE was refused.
   */
  lemma EveryHangupIsAccountedFor(incoming: bool, run: seq<Event>)
    requires ValidRun(Start(incoming), run)
    ensures var t := After(Start(incoming), run);
            Hangups(run) == t.waiting + t.byes + t.hungUp + FailedHangups(run)
  {
    RunAccountsForHangups(Start(incoming), run);
  }
}
