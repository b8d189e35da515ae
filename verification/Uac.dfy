/** The client side of an INVITE (engine/uac.go): retries, CANCEL and PRACK over every order of events. */
module Uac {
  import opened Options

  const MAX_AUTH_ATTEMPTS := 2

  /** What goes out on the wire, with its CSeq number. */
  datatype Request = Invite(cseq: nat) | Cancel(cseq: nat) | Prack(cseq: nat)

  /**
   * What the select statement of run can take, and the two goroutines that run starts. usable says whether a
   * challenge or a 422 carries a header that parses and the new INVITE could be sent; rseq is the RSeq of a
   * provisional response that requires 100rel, 0 without one.
   */
  datatype Event =
    | Response(code: nat, usable: bool, rseq: nat)
    | TransactionDone
    | CancelRequested
    | NoAnswer
    | CancelWaitOver
    | CancelStarts
    | PrackStarts

  datatype Result = Result(code: Option<nat>, failed: bool, cancelled: bool)

  datatype Loop = Loop(
    invite: nat,         // CSeq of the last INVITE
    cseq: nat,           // highest CSeq the dialog believes it has used
    lastRSeq: nat,
    provisional: bool,
    cancelSent: bool,
    cancelOpen: bool,    // the cancel channel is still selected on
    authAttempts: nat,
    retried422: bool,
    pendingCancel: bool, // sendCancel has started the goroutine, CANCEL is not out yet
    pendingPracks: nat,
    rang: bool,
    sent: seq<Request>,
    result: Option<Result>)

  function Start(cseq: nat): Loop {
    Loop(cseq, cseq, 0, false, false, true, 0, false, false, 0, false, [Invite(cseq)], None)
  }

  predicate IsProvisional(code: nat) { 100 <= code < 200 }

  predicate IsSuccess(code: nat) { 200 <= code < 300 }

  predicate Enabled(s: Loop, e: Event) {
    match e
    case CancelStarts => s.pendingCancel
    case PrackStarts => s.pendingPracks > 0
    case CancelRequested => s.result.None? && s.cancelOpen
    case CancelWaitOver => s.result.None? && s.cancelSent
    case _ => s.result.None?
  }

  function SendCancel(s: Loop): Loop {
    if s.cancelSent then s else s.(cancelSent := true, pendingCancel := true)
  }

  /** Before the first provisional response the wish is only noted, by closing the channel. */
  function RequestCancel(s: Loop): Loop {
    var t := s.(cancelOpen := false);
    if t.provisional then SendCancel(t) else t
  }

  function OnProvisional(s: Loop, code: nat, rseq: nat): Loop {
    var acked := if rseq > s.lastRSeq then s.(lastRSeq := rseq, pendingPracks := s.pendingPracks + 1) else s;
    var t := acked.(provisional := true, rang := s.rang || code > 100);
    if !t.cancelOpen && !t.cancelSent then SendCancel(t) else t
  }

  /** A new INVITE with the next CSeq; the old transaction is left behind. */
  function Resent(s: Loop): Loop {
    s.(invite := s.invite + 1, cseq := s.invite + 1, provisional := false, sent := s.sent + [Invite(s.invite + 1)])
  }

  function OnResponse(s: Loop, password: bool, code: nat, usable: bool, rseq: nat): Loop {
    if IsProvisional(code) then OnProvisional(s, code, rseq)
    else if IsSuccess(code) then s.(result := Some(Result(Some(code), false, s.cancelSent)))
    else if (code == 401 || code == 407) && s.authAttempts < MAX_AUTH_ATTEMPTS && password && !s.cancelSent then
      var t := s.(authAttempts := s.authAttempts + 1);
      if usable then Resent(t) else t.(result := Some(Result(Some(code), true, false)))
    else if code == 422 && !s.retried422 && !s.cancelSent then
      var t := s.(retried422 := true);
      if usable then Resent(t) else t.(result := Some(Result(Some(code), true, false)))
    else s.(result := Some(Result(Some(code), false, s.cancelSent)))
  }

  function Step(s: Loop, password: bool, e: Event): Loop {
    match e
    case Response(code, usable, rseq) => OnResponse(s, password, code, usable, rseq)
    case TransactionDone => s.(result := Some(Result(None, true, s.cancelSent)))
    case CancelRequested => RequestCancel(s)
    case NoAnswer => RequestCancel(s)
    case CancelWaitOver => s.(result := Some(Result(None, true, true)))
    case CancelStarts => s.(pendingCancel := false, sent := s.sent + [Cancel(s.invite)])
    case PrackStarts =>
      s.(pendingPracks := if s.pendingPracks > 0 then s.pendingPracks - 1 else 0,
         cseq := s.cseq + 1, sent := s.sent + [Prack(s.cseq + 1)])
  }

  predicate ValidRun(s: Loop, password: bool, run: seq<Event>)
    decreases |run|
  {
    run == [] || (Enabled(s, run[0]) && ValidRun(Step(s, password, run[0]), password, run[1..]))
  }

  function After(s: Loop, password: bool, run: seq<Event>): Loop
    decreases |run|
  {
    if run == [] then s else After(Step(s, password, run[0]), password, run[1..])
  }

  /** The local variables of run. */
  datatype Vars = Vars(provisional: bool, cancelSent: bool, cancelOpen: bool, authAttempts: nat, retried422: bool)

  const INITIAL := Vars(false, false, true, 0, false)

  /** The dialog object with the event loop of run. */
  class UacDialog {
    const password: bool
    var invite: nat
    var cseq: nat
    var lastRSeq: nat
    var pendingCancel: bool
    var pendingPracks: nat
    var rang: bool
    var sent: seq<Request>

    constructor (cseq: nat, password: bool)
      ensures this.password == password && invite == cseq && this.cseq == cseq && lastRSeq == 0
      ensures !pendingCancel && pendingPracks == 0 && !rang && sent == [Invite(cseq)]
    {
      this.password, invite, this.cseq, lastRSeq := password, cseq, cseq, 0;
      pendingCancel, pendingPracks, rang, sent := false, 0, false, [Invite(cseq)];
    }

    /** The dialog and the loop's local variables as one value. */
    ghost function View(v: Vars, result: Option<Result>): Loop
      reads this
    {
      Loop(invite, cseq, lastRSeq, v.provisional, v.cancelSent, v.cancelOpen, v.authAttempts, v.retried422,
           pendingCancel, pendingPracks, rang, sent, result)
    }

    method Resend(v: Vars) returns (u: Vars)
      modifies this
      ensures View(u, None) == Resent(old(View(v, None)))
    {
      invite := invite + 1;
      cseq := invite;
      sent := sent + [Invite(invite)];
      u := v.(provisional := false);
    }

    method DoSendCancel(v: Vars) returns (u: Vars)
      modifies this
      ensures View(u, None) == SendCancel(old(View(v, None)))
    {
      u := v;
      if !v.cancelSent {
        u := v.(cancelSent := true);
        pendingCancel := true;
      }
    }

    method DoRequestCancel(v: Vars) returns (u: Vars)
      modifies this
      ensures View(u, None) == RequestCancel(old(View(v, None)))
    {
      u := v.(cancelOpen := false);
      if u.provisional {
        u := DoSendCancel(u);
      }
    }

    method HandleProvisional(v: Vars, code: nat, rseq: nat) returns (u: Vars)
      modifies this
      ensures View(u, None) == OnProvisional(old(View(v, None)), code, rseq)
    {
      u := v.(provisional := true);
      if rseq > lastRSeq {
        lastRSeq, pendingPracks := rseq, pendingPracks + 1;
      }
      if code > 100 {
        rang := true;
      }
      if !u.cancelOpen && !u.cancelSent {
        u := DoSendCancel(u);
      }
    }

    method HandleResponse(v: Vars, code: nat, usable: bool, rseq: nat) returns (u: Vars, result: Option<Result>)
      modifies this
      ensures View(u, result) == OnResponse(old(View(v, None)), password, code, usable, rseq)
    {
      hide OnProvisional, Resent;
      u, result := v, None;
      if IsProvisional(code) {
        u := HandleProvisional(v, code, rseq);
      } else if IsSuccess(code) {
        result := Some(Result(Some(code), false, v.cancelSent));
      } else if (code == 401 || code == 407) && v.authAttempts < MAX_AUTH_ATTEMPTS && password && !v.cancelSent {
        u := v.(authAttempts := v.authAttempts + 1);
        if usable {
          u := Resend(u);
        } else {
          result := Some(Result(Some(code), true, false));
        }
      } else if code == 422 && !v.retried422 && !v.cancelSent {
        u := v.(retried422 := true);
        if usable {
          u := Resend(u);
        } else {
          result := Some(Result(Some(code), true, false));
        }
      } else {
        result := Some(Result(Some(code), false, v.cancelSent));
      }
    }

    /** The goroutines that run starts; they may still run after it has returned. */
    method RunGoroutine(e: Event)
      requires e.CancelStarts? || (e.PrackStarts? && pendingPracks > 0)
      modifies this
      ensures forall v, result :: View(v, result) == Step(old(View(v, result)), password, e)
    {
      if e.CancelStarts? {
        pendingCancel := false;
        sent := sent + [Cancel(invite)];
      } else {
        pendingPracks := pendingPracks - 1;
        cseq := cseq + 1;
        sent := sent + [Prack(cseq)];
      }
    }

    /** Handles events in the order in which select takes them. */
    method Run(events: seq<Event>) returns (result: Option<Result>)
      requires View(INITIAL, None) == Start(invite) && ValidRun(Start(invite), password, events)
      modifies this
      ensures exists v :: View(v, result) == After(Start(old(invite)), password, events)
    {
      var v := INITIAL;
      result := None;
      ghost var end := After(Start(invite), password, events);
      for i := 0 to |events|
        invariant ValidRun(View(v, result), password, events[i..])
        invariant After(View(v, result), password, events[i..]) == end
      {
        hide OnResponse, RequestCancel;
        assert events[i..][0] == events[i] && events[i..][1..] == events[i + 1..];
        match events[i] {
          case Response(code, usable, rseq) => v, result := HandleResponse(v, code, usable, rseq);
          case TransactionDone => result := Some(Result(None, true, v.cancelSent));
          case CancelRequested => v := DoRequestCancel(v);
          case NoAnswer => v := DoRequestCancel(v);
          case CancelWaitOver => result := Some(Result(None, true, true));
          case _ => RunGoroutine(events[i]);
        }
      }
    }
  }

  /* ---- What holds of every run ---- */

  function Invites(sent: seq<Request>): seq<nat> {
    if sent == [] then []
    else
      var last := sent[|sent| - 1];
      Invites(sent[..|sent| - 1]) + if last.Invite? then [last.cseq] else []
  }

  function Cancels(sent: seq<Request>): nat {
    if sent == [] then 0
    else Cancels(sent[..|sent| - 1]) + if sent[|sent| - 1].Cancel? then 1 else 0
  }

  /** No INVITE follows a CANCEL, and every CANCEL names the last INVITE. */
  ghost predicate CancelIsLast(sent: seq<Request>, invite: nat) {
    && (forall i :: 0 <= i < |sent| && sent[i].Cancel? ==> sent[i].cseq == invite)
    && (forall i, j :: 0 <= i < j < |sent| && sent[i].Cancel? ==> !sent[j].Invite?)
  }

  function Consecutive(first: nat, n: nat): seq<nat> {
    seq(n, i requires 0 <= i => first + i)
  }

  lemma SentMore(sent: seq<Request>, r: Request)
    ensures Invites(sent + [r]) == Invites(sent) + (if r.Invite? then [r.cseq] else [])
    ensures Cancels(sent + [r]) == Cancels(sent) + (if r.Cancel? then 1 else 0)
  {
    assert (sent + [r])[..|sent|] == sent;
  }

  lemma {:induction false} NoCancelYet(sent: seq<Request>)
    requires Cancels(sent) == 0
    ensures forall i :: 0 <= i < |sent| ==> !sent[i].Cancel?
  {
    if sent != [] {
      NoCancelYet(sent[..|sent| - 1]);
    }
  }

  /** The part of the invariant that is about the loop's variables only. */
  ghost predicate VarsOk(s: Loop, first: nat) {
    && (s.cancelSent <==> !s.cancelOpen && s.provisional)
    && (s.pendingCancel ==> s.cancelSent)
    && first <= s.invite <= first + s.authAttempts + (if s.retried422 then 1 else 0)
    && s.authAttempts <= MAX_AUTH_ATTEMPTS
    && (s.result.Some? ==> s.result.value.cancelled == s.cancelSent)
  }

  /** A step that the run loop itself takes: it leaves the wire alone or sends the next INVITE. */
  ghost predicate LoopStep(s: Loop, t: Loop) {
    && (s.cancelSent ==> t.cancelSent)
    && (t.pendingCancel <==> s.pendingCancel || (t.cancelSent && !s.cancelSent))
    && ((t.invite == s.invite && t.cseq == s.cseq && t.sent == s.sent)
        || (t.invite == t.cseq == s.invite + 1 && t.sent == s.sent + [Invite(t.invite)] && !t.cancelSent))
  }

  lemma RequestCancelKeepsVars(s: Loop, first: nat)
    requires VarsOk(s, first) && s.result.None?
    ensures VarsOk(RequestCancel(s), first) && LoopStep(s, RequestCancel(s))
  {}

  lemma ProvisionalKeepsVars(s: Loop, code: nat, rseq: nat, first: nat)
    requires VarsOk(s, first) && s.result.None?
    ensures VarsOk(OnProvisional(s, code, rseq), first) && LoopStep(s, OnProvisional(s, code, rseq))
  {}

  lemma ResentKeepsVars(s: Loop, t: Loop, first: nat)
    requires VarsOk(s, first) && s.result.None? && !s.cancelSent
    requires || (t == s.(authAttempts := s.authAttempts + 1) && s.authAttempts < MAX_AUTH_ATTEMPTS)
             || (t == s.(retried422 := true) && !s.retried422)
    ensures VarsOk(Resent(t), first) && LoopStep(s, Resent(t))
    ensures forall code :: VarsOk(t.(result := Some(Result(Some(code), true, false))), first)
                           && LoopStep(s, t.(result := Some(Result(Some(code), true, false))))
  {}

  lemma ResponseKeepsVars(s: Loop, password: bool, code: nat, usable: bool, rseq: nat, first: nat)
    requires VarsOk(s, first) && s.result.None?
    ensures VarsOk(OnResponse(s, password, code, usable, rseq), first)
    ensures LoopStep(s, OnResponse(s, password, code, usable, rseq))
  {
    ProvisionalKeepsVars(s, code, rseq, first);
    assert VarsOk(s.(result := Some(Result(Some(code), false, s.cancelSent))), first);
    hide VarsOk, OnProvisional, Resent;
    if !s.cancelSent && s.authAttempts < MAX_AUTH_ATTEMPTS {
      ResentKeepsVars(s, s.(authAttempts := s.authAttempts + 1), first);
    }
    if !s.cancelSent && !s.retried422 {
      ResentKeepsVars(s, s.(retried422 := true), first);
    }
  }

  lemma StepKeepsVars(s: Loop, password: bool, e: Event, first: nat)
    requires VarsOk(s, first) && Enabled(s, e)
    ensures VarsOk(Step(s, password, e), first)
    ensures !e.CancelStarts? && !e.PrackStarts? ==> LoopStep(s, Step(s, password, e))
  {
    match e
    case Response(code, usable, rseq) =>
      ResponseKeepsVars(s, password, code, usable, rseq, first);
    case CancelRequested => RequestCancelKeepsVars(s, first);
    case NoAnswer => RequestCancelKeepsVars(s, first);
    case _ =>
  }

  /** The part that is about the requests sent. */
  ghost predicate SentOk(s: Loop, first: nat) {
    && Cancels(s.sent) + (if s.pendingCancel then 1 else 0) == (if s.cancelSent then 1 else 0)
    && CancelIsLast(s.sent, s.invite)
    && first <= s.invite && Invites(s.sent) == Consecutive(first, s.invite - first + 1)
  }

  lemma CancelKeepsSent(s: Loop, first: nat)
    requires VarsOk(s, first) && SentOk(s, first) && s.pendingCancel
    ensures SentOk(s.(pendingCancel := false, sent := s.sent + [Cancel(s.invite)]), first)
  {
    SentMore(s.sent, Cancel(s.invite));
    hide Cancels, Invites, Consecutive;
  }

  lemma PrackKeepsSent(s: Loop, n: nat, t: Loop, first: nat)
    requires VarsOk(s, first) && SentOk(s, first)
    requires t.sent == s.sent + [Prack(n)] && t.invite == s.invite && t.cancelSent == s.cancelSent
    requires t.pendingCancel == s.pendingCancel
    ensures SentOk(t, first)
  {
    SentMore(s.sent, Prack(n));
    hide Cancels, Invites, Consecutive, VarsOk;
  }

  lemma LoopKeepsSent(s: Loop, t: Loop, first: nat)
    requires SentOk(s, first) && (s.pendingCancel ==> s.cancelSent) && LoopStep(s, t)
    ensures SentOk(t, first)
  {
    SentMore(s.sent, Invite(s.invite + 1));
    if t.invite != s.invite {
      NoCancelYet(s.sent);
      assert Consecutive(first, t.invite - first + 1) == Consecutive(first, s.invite - first + 1) + [t.invite];
    }
    hide Cancels, Invites, Consecutive;
  }

  lemma StepKeepsSent(s: Loop, password: bool, e: Event, first: nat)
    requires VarsOk(s, first) && SentOk(s, first) && Enabled(s, e)
    ensures SentOk(Step(s, password, e), first)
  {
    StepKeepsVars(s, password, e, first);
    hide SentOk, LoopStep, OnResponse, RequestCancel;
    match e
    case CancelStarts => CancelKeepsSent(s, first);
    case PrackStarts => PrackKeepsSent(s, s.cseq + 1, Step(s, password, e), first);
    case _ => LoopKeepsSent(s, Step(s, password, e), first);
  }

  lemma {:induction false} RunKeepsInv(s: Loop, password: bool, run: seq<Event>, first: nat)
    requires VarsOk(s, first) && SentOk(s, first) && ValidRun(s, password, run)
    ensures VarsOk(After(s, password, run), first) && SentOk(After(s, password, run), first)
    decreases |run|
  {
    if run != [] {
      hide VarsOk, SentOk, Step, Enabled;
      StepKeepsVars(s, password, run[0], first);
      StepKeepsSent(s, password, run[0], first);
      RunKeepsInv(Step(s, password, run[0]), password, run[1..], first);
    }
  }

  /**
   * Over every order of events: CANCEL is due exactly when it was requested and the current INVITE has a
   * provisional response; it goes out at most once, names the last INVITE and no INVITE follows it; and the
   * INVITEs, at most 1 + 2 + 1 of them, carry consecutive CSeq numbers. The result says whether CANCEL was sent.
   */
  lemma EveryRun(first: nat, password: bool, run: seq<Event>)
    requires ValidRun(Start(first), password, run)
    ensures var s := After(Start(first), password, run);
            && (s.cancelSent <==> !s.cancelOpen && s.provisional)
            && Cancels(s.sent) <= 1 && (Cancels(s.sent) == 1 <==> s.cancelSent && !s.pendingCancel)
            && CancelIsLast(s.sent, s.invite)
            && Invites(s.sent) == Consecutive(first, |Invites(s.sent)|)
            && 1 <= |Invites(s.sent)| <= 1 + MAX_AUTH_ATTEMPTS + 1 && s.invite == first + |Invites(s.sent)| - 1
            && (s.result.Some? ==> s.result.value.cancelled == s.cancelSent)
  {
    SentMore([], Invite(first));
    assert [] + [Invite(first)] == [Invite(first)];
    RunKeepsInv(Start(first), password, run, first);
  }

  /* ---- CSeq numbers of all requests but CANCEL, which repeats its INVITE's ---- */

  ghost predicate Rising(sent: seq<Request>) {
    forall i, j :: 0 <= i < j < |sent| && !sent[i].Cancel? && !sent[j].Cancel? ==> sent[i].cseq < sent[j].cseq
  }

  ghost predicate NoInviteAfterPrack(sent: seq<Request>) {
    forall i, j :: 0 <= i < j < |sent| && sent[i].Prack? ==> !sent[j].Invite?
  }

  /** The numbers in use: the dialog's counter is the highest one, and is ahead of the INVITE only after a PRACK. */
  ghost predicate CounterOk(sent: seq<Request>, invite: nat, cseq: nat) {
    && (forall i :: 0 <= i < |sent| ==> sent[i].cseq <= cseq)
    && invite <= cseq
    && (invite < cseq ==> exists i :: 0 <= i < |sent| && sent[i] == Prack(invite + 1))
    && (invite == cseq ==> forall i :: 0 <= i < |sent| ==> !sent[i].Prack?)
    && NoInviteAfterPrack(sent) && Rising(sent)
  }

  /** What an INVITE sent after a PRACK breaks for good. */
  ghost predicate Broken(sent: seq<Request>) {
    !Rising(sent) && !NoInviteAfterPrack(sent)
  }

  lemma InviteKeepsCounter(sent: seq<Request>, invite: nat, cseq: nat)
    requires CounterOk(sent, invite, cseq)
    ensures CounterOk(sent + [Invite(invite + 1)], invite + 1, invite + 1) || Broken(sent + [Invite(invite + 1)])
  {
    var t := sent + [Invite(invite + 1)];
    if invite < cseq {
      var i :| 0 <= i < |sent| && sent[i] == Prack(invite + 1);
      assert t[i] == sent[i] && t[|sent|] == Invite(invite + 1);
    }
  }

  lemma GoroutineKeepsCounter(sent: seq<Request>, invite: nat, cseq: nat)
    requires CounterOk(sent, invite, cseq)
    ensures CounterOk(sent + [Prack(cseq + 1)], invite, cseq + 1)
    ensures CounterOk(sent + [Cancel(invite)], invite, cseq)
  {
    var t, u := sent + [Prack(cseq + 1)], sent + [Cancel(invite)];
    assert t[|sent|] == Prack(cseq + 1);
    if invite < cseq {
      var i :| 0 <= i < |sent| && sent[i] == Prack(invite + 1);
      assert t[i] == u[i] == sent[i];
    }
  }

  ghost predicate Counted(s: Loop) {
    CounterOk(s.sent, s.invite, s.cseq) || Broken(s.sent)
  }

  lemma LoopKeepsCounter(s: Loop, t: Loop)
    requires Counted(s) && LoopStep(s, t)
    ensures Counted(t)
  {
    hide CounterOk, Broken;
    if t.sent != s.sent {
      if Broken(s.sent) {
        BrokenStays(s.sent, [Invite(t.invite)]);
      } else {
        InviteKeepsCounter(s.sent, s.invite, s.cseq);
      }
    }
  }

  lemma GoroutineKeepsCounted(s: Loop, password: bool, e: Event)
    requires Counted(s) && (e.CancelStarts? || e.PrackStarts?)
    ensures Counted(Step(s, password, e))
  {
    hide CounterOk, Broken;
    var r := if e.CancelStarts? then Cancel(s.invite) else Prack(s.cseq + 1);
    assert Step(s, password, e).sent == s.sent + [r];
    if Broken(s.sent) {
      BrokenStays(s.sent, [r]);
    } else {
      GoroutineKeepsCounter(s.sent, s.invite, s.cseq);
    }
  }

  lemma StepKeepsCounter(s: Loop, password: bool, e: Event, first: nat)
    requires Counted(s) && VarsOk(s, first) && Enabled(s, e)
    ensures Counted(Step(s, password, e))
  {
    StepKeepsVars(s, password, e, first);
    hide Counted, VarsOk, LoopStep, Step;
    if e.CancelStarts? || e.PrackStarts? {
      GoroutineKeepsCounted(s, password, e);
    } else {
      LoopKeepsCounter(s, Step(s, password, e));
    }
  }

  lemma BrokenStays(sent: seq<Request>, more: seq<Request>)
    requires Broken(sent)
    ensures Broken(sent + more)
  {
    var t := sent + more;
    var i, j :| 0 <= i < j < |sent| && !sent[i].Cancel? && !sent[j].Cancel? && sent[i].cseq >= sent[j].cseq;
    assert t[i] == sent[i] && t[j] == sent[j];
    var k, l :| 0 <= k < l < |sent| && sent[k].Prack? && sent[l].Invite?;
    assert t[k] == sent[k] && t[l] == sent[l];
  }

  lemma {:induction false} RunKeepsCounter(s: Loop, password: bool, run: seq<Event>, first: nat)
    requires Counted(s) && VarsOk(s, first) && ValidRun(s, password, run)
    ensures Counted(After(s, password, run))
    decreases |run|
  {
    hide Step, Enabled, Counted, VarsOk;
    if run != [] {
      StepKeepsVars(s, password, run[0], first);
      StepKeepsCounter(s, password, run[0], first);
      RunKeepsCounter(Step(s, password, run[0]), password, run[1..], first);
    }
  }

  /** CSeq numbers rise strictly exactly in the runs in which no INVITE is sent again after a PRACK. */
  lemma CSeqRisesUnlessRetriedAfterPrack(first: nat, password: bool, run: seq<Event>)
    requires ValidRun(Start(first), password, run)
    ensures var sent := After(Start(first), password, run).sent; Rising(sent) <==> NoInviteAfterPrack(sent)
  {
    RunKeepsCounter(Start(first), password, run, first);
  }

  /** A run in which they do not: a reliable 183, its PRACK, then a challenge. */
  lemma RetryAfterPrackRepeatsCSeq(first: nat)
    ensures var run := [Response(183, true, 1), PrackStarts, Response(407, true, 0)];
            && ValidRun(Start(first), true, run)
            && After(Start(first), true, run).sent == [Invite(first), Prack(first + 1), Invite(first + 1)]
  {
    var s0 := Start(first);
    var e1, e2, e3 := Response(183, true, 1), PrackStarts, Response(407, true, 0);
    var s1 := Step(s0, true, e1);
    var s2 := Step(s1, true, e2);
    assert [e1, e2, e3][1..] == [e2, e3] && [e2, e3][1..] == [e3] && [e3][1..] == [];
    assert After(s0, true, [e1, e2, e3]) == After(s1, true, [e2, e3]) == After(s2, true, [e3]) == Step(s2, true, e3);
  }
}
