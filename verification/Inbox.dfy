/**
 * The inbox of a device (engine/device.go): incoming calls are delivered into it, any number of ExpectCall loops
 * filter it in place and sleep on a signal channel that every delivery closes and replaces. Channels are numbered:
 * signal is the open one, every smaller number is closed.
 */
module Inbox {
  import opened Options

  type Id = int

  /* ---- One pass over the inbox ---- */

  /** What is left of s without the calls in gone, in order. */
  function Without(s: seq<Id>, gone: set<Id>): seq<Id> {
    if s == [] then []
    else
      var rest, c := Without(s[..|s| - 1], gone), s[|s| - 1];
      if c in gone then rest else rest + [c]
  }

  /** The call a pass claims; ended holds the calls it finds ended. */
  function Found(s: seq<Id>, ended: set<Id>, wanted: Id -> bool): Option<Id> {
    if s == [] then None
    else
      var f, c := Found(s[..|s| - 1], ended, wanted), s[|s| - 1];
      if f.None? && c !in ended && wanted(c) then Some(c) else f
  }

  function Kept(s: seq<Id>, ended: set<Id>, wanted: Id -> bool): seq<Id> {
    if s == [] then []
    else
      var before, c := s[..|s| - 1], s[|s| - 1];
      var kept := Kept(before, ended, wanted);
      if c in ended || (Found(before, ended, wanted).None? && wanted(c)) then kept else kept + [c]
  }

  class Device {
    var buf: array<Id>
    var len: nat
    var signal: nat

    ghost predicate Valid()
      reads this
    {
      len <= buf.Length
    }

    ghost function Calls(): seq<Id>
      reads this, buf
      requires Valid()
    {
      buf[..len]
    }

    constructor ()
      ensures Valid() && Calls() == [] && signal == 0
    {
      buf, len, signal := new Id[4](_ => 0), 0, 0;
    }

    method Deliver(c: Id)
      requires Valid()
      modifies this, buf
      ensures Valid() && Calls() == old(Calls()) + [c]
      ensures signal == old(signal) + 1
      ensures buf == old(buf) || fresh(buf)
    {
      if len == buf.Length {
        var bigger := new Id[2 * len + 1](_ => 0);
        for i := 0 to len
          modifies bigger
          invariant bigger[..i] == buf[..i]
        {
          bigger[i] := buf[i];
        }
        buf := bigger;
      }
      buf[len] := c;
      len := len + 1;
      signal := signal + 1;
    }

    /** The locked part of ExpectCall: kept shares its array with the inbox it is read from. */
    method Scan(ended: set<Id>, wanted: Id -> bool) returns (found: Option<Id>, sig: nat)
      requires Valid()
      modifies this, buf
      ensures Valid() && buf == old(buf) && signal == old(signal) && sig == signal
      ensures found == Found(old(Calls()), ended, wanted)
      ensures Calls() == Kept(old(Calls()), ended, wanted)
      ensures forall j :: len <= j < old(len) ==> buf[j] == 0
    {
      hide Found, Kept;
      ghost var was := Calls();
      PassBegins(was, ended, wanted);
      var k := 0;
      found := None;
      for i := 0 to len
        modifies buf
        invariant k <= i && buf[i..len] == was[i..]
        invariant buf[..k] == Kept(was[..i], ended, wanted)
        invariant found == Found(was[..i], ended, wanted)
      {
        PassStep(was, i, ended, wanted);
        assert buf[i] == was[i] && buf[i + 1..len] == was[i + 1..];
        if buf[i] in ended {
        } else if found == None && wanted(buf[i]) {
          found := Some(buf[i]);
        } else {
          buf[k] := buf[i];
          k := k + 1;
        }
      }
      assert was[..len] == was;
      for j := k to len
        modifies buf
        invariant buf[..k] == Kept(was, ended, wanted)
        invariant forall l :: k <= l < j ==> buf[l] == 0
      {
        buf[j] := 0;
      }
      len := k;
      sig := signal;
    }
  }

  lemma PassBegins(s: seq<Id>, ended: set<Id>, wanted: Id -> bool)
    ensures Found(s[..0], ended, wanted) == None && Kept(s[..0], ended, wanted) == []
  {}

  lemma PassStep(s: seq<Id>, i: nat, ended: set<Id>, wanted: Id -> bool)
    requires i < |s|
    ensures var f, kept, c := Found(s[..i], ended, wanted), Kept(s[..i], ended, wanted), s[i];
            && Found(s[..i + 1], ended, wanted) == (if f.None? && c !in ended && wanted(c) then Some(c) else f)
            && Kept(s[..i + 1], ended, wanted)
               == if c in ended || (f.None? && wanted(c)) then kept else kept + [c]
  {
    assert s[..i + 1][..i] == s[..i];
  }

  predicate LiveMatch(s: seq<Id>, i: nat, ended: set<Id>, wanted: Id -> bool) {
    i < |s| && s[i] !in ended && wanted(s[i])
  }

  lemma {:induction false} FoundAt(s: seq<Id>, ended: set<Id>, wanted: Id -> bool) returns (i: nat)
    ensures Found(s, ended, wanted).Some? <==> exists j :: LiveMatch(s, j, ended, wanted)
    ensures Found(s, ended, wanted).Some? ==>
              && LiveMatch(s, i, ended, wanted) && Found(s, ended, wanted).value == s[i]
              && forall j: nat :: j < i ==> !LiveMatch(s, j, ended, wanted)
  {
    i := 0;
    if s != [] {
      var n := |s| - 1;
      var before := s[..n];
      i := FoundAt(before, ended, wanted);
      forall j: nat | j < n
        ensures LiveMatch(s, j, ended, wanted) <==> LiveMatch(before, j, ended, wanted)
      {
      }
      if Found(before, ended, wanted).Some? {
        assert LiveMatch(s, i, ended, wanted);
      } else if LiveMatch(s, n, ended, wanted) {
        i := n;
      }
    }
  }

  lemma {:induction false} NothingFound(s: seq<Id>, ended: set<Id>, wanted: Id -> bool)
    requires Found(s, ended, wanted).None?
    ensures Kept(s, ended, wanted) == Without(s, ended)
  {
    if s != [] {
      NothingFound(s[..|s| - 1], ended, wanted);
    }
  }

  lemma {:induction false} KeptSplits(s: seq<Id>, ended: set<Id>, wanted: Id -> bool, i: nat)
    requires LiveMatch(s, i, ended, wanted) && forall j: nat :: j < i ==> !LiveMatch(s, j, ended, wanted)
    ensures Kept(s, ended, wanted) == Without(s[..i], ended) + Without(s[i + 1..], ended)
  {
    var n := |s| - 1;
    var before, rest := s[..n], s[i + 1..];
    forall j: nat | j < n
      ensures LiveMatch(s, j, ended, wanted) <==> LiveMatch(before, j, ended, wanted)
    {
    }
    var _ := FoundAt(before, ended, wanted);
    hide LiveMatch, Found;
    if i == n {
      assert !exists j: nat :: j < n && LiveMatch(before, j, ended, wanted);
      LastFound(s, ended, wanted);
    } else {
      KeptSplits(before, ended, wanted, i);
      assert s[..i] == before[..i] && rest != [] && rest[..|rest| - 1] == before[i + 1..] && rest[|rest| - 1] == s[n];
    }
  }

  lemma LastFound(s: seq<Id>, ended: set<Id>, wanted: Id -> bool)
    requires s != [] && LiveMatch(s, |s| - 1, ended, wanted) && Found(s[..|s| - 1], ended, wanted).None?
    ensures Kept(s, ended, wanted) == Without(s[..|s| - 1], ended) + Without(s[|s|..], ended)
  {
    NothingFound(s[..|s| - 1], ended, wanted);
    assert s[|s|..] == [];
  }

  /**
   * A pass claims a call exactly when some live call matches, and then the first such; what stays is every other live
   * call, before and after it, in order.
   */
  lemma ScanTakesEarliest(s: seq<Id>, ended: set<Id>, wanted: Id -> bool) returns (i: nat)
    ensures Found(s, ended, wanted).Some? <==> exists j :: LiveMatch(s, j, ended, wanted)
    ensures Found(s, ended, wanted).None? ==> Kept(s, ended, wanted) == Without(s, ended)
    ensures Found(s, ended, wanted).Some? ==>
              && LiveMatch(s, i, ended, wanted) && Found(s, ended, wanted).value == s[i]
              && (forall j: nat :: j < i ==> !LiveMatch(s, j, ended, wanted))
              && Kept(s, ended, wanted) == Without(s[..i], ended) + Without(s[i + 1..], ended)
  {
    hide Found, Kept, Without;
    i := FoundAt(s, ended, wanted);
    if Found(s, ended, wanted).Some? {
      KeptSplits(s, ended, wanted, i);
    } else {
      NothingFound(s, ended, wanted);
    }
  }

  /* ---- Deliveries, passes, sleeps and time-outs in any order ---- */

  /** One running ExpectCall. */
  datatype Mode = Looking | Waiting(sig: nat) | Claimed(call: Id) | GaveUp

  /** log holds every call ever delivered, gone the ones taken out of the inbox again. */
  datatype System = System(inbox: seq<Id>, signal: nat, ended: set<Id>, waiters: map<int, Mode>, log: seq<Id>,
                           gone: set<Id>)

  const START := System([], 0, {}, map[], [], {})

  /**
   * Scan is the pass of one waiter: the calls in dying end while it runs, and it finds those in seen ended. GiveUp
   * is the time-out or the destruction of the device.
   */
  datatype Event =
    | Deliver(call: Id)
    | End(call: Id)
    | Expect(w: int)
    | Scan(w: int, dying: set<Id>, seen: set<Id>)
    | Wake(w: int)
    | GiveUp(w: int)

  predicate Enabled(s: System, e: Event) {
    match e
    case Deliver(c) => c !in s.log
    case End(_) => true
    case Expect(w) => w !in s.waiters
    case Scan(w, dying, seen) => w in s.waiters && s.waiters[w] == Looking && s.ended <= seen <= s.ended + dying
    case Wake(w) => w in s.waiters && s.waiters[w].Waiting? && s.waiters[w].sig < s.signal
    case GiveUp(w) => w in s.waiters && s.waiters[w].Waiting?
  }

  function Next(s: System, e: Event, wants: (int, Id) -> bool): System
    requires Enabled(s, e)
  {
    match e
    case Deliver(c) => s.(inbox := s.inbox + [c], signal := s.signal + 1, log := s.log + [c])
    case End(c) => s.(ended := s.ended + {c})
    case Expect(w) => s.(waiters := s.waiters[w := Looking])
    case Scan(w, dying, seen) =>
      var wanted := c => wants(w, c);
      var found := Found(s.inbox, seen, wanted);
      var taken := if found.Some? then {found.value} else {};
      System(Kept(s.inbox, seen, wanted), s.signal, s.ended + dying,
             s.waiters[w := if found.Some? then Claimed(found.value) else Waiting(s.signal)],
             s.log, s.gone + taken + (set c | c in seen && c in s.inbox))
    case Wake(w) => s.(waiters := s.waiters[w := Looking])
    case GiveUp(w) => s.(waiters := s.waiters[w := GaveUp])
  }

  predicate Distinct(s: seq<Id>) {
    forall i, j :: 0 <= i < j < |s| ==> s[i] != s[j]
  }

  predicate HasClaimed(s: System, w: int, c: Id) {
    w in s.waiters && s.waiters[w] == Claimed(c)
  }

  ghost predicate Conserved(s: System) {
    && Distinct(s.log)
    && s.inbox == Without(s.log, s.gone)
    && (forall c :: c in s.gone ==> c in s.log && (c in s.ended || exists w :: HasClaimed(s, w, c)))
    && (forall w, c :: HasClaimed(s, w, c) ==> c in s.gone)
    && (forall v, w, c :: HasClaimed(s, v, c) && HasClaimed(s, w, c) ==> v == w)
  }

  /** c was delivered since the signal number sig was made. */
  predicate DeliveredSince(s: System, sig: nat, c: Id) {
    exists i :: sig <= i < |s.log| && s.log[i] == c
  }

  /** Deliveries number the signals; a waiter wants no call in the inbox that was there when it last looked. */
  ghost predicate NobodyOversleeps(s: System, wants: (int, Id) -> bool) {
    && s.signal == |s.log|
    && (forall w :: Sleeps(s, w) ==> s.waiters[w].sig <= s.signal)
    && (forall w, c :: Sleeps(s, w) && c in s.inbox && wants(w, c) ==> DeliveredSince(s, s.waiters[w].sig, c))
  }

  predicate Sleeps(s: System, w: int) {
    w in s.waiters && s.waiters[w].Waiting?
  }

  lemma {:induction false} WithoutHolds(s: seq<Id>, gone: set<Id>, c: Id)
    ensures c in Without(s, gone) <==> c in s && c !in gone
  {
    if s != [] {
      WithoutHolds(s[..|s| - 1], gone, c);
    }
  }

  lemma {:induction false} WithoutTwice(s: seq<Id>, a: set<Id>, b: set<Id>)
    ensures Without(Without(s, a), b) == Without(s, a + b)
  {
    if s != [] {
      WithoutTwice(s[..|s| - 1], a, b);
      var rest, c := Without(s[..|s| - 1], a), s[|s| - 1];
      if c !in a {
        assert (rest + [c])[..|rest|] == rest;
      }
    }
  }

  lemma {:induction false} WithoutSame(s: seq<Id>, a: set<Id>, b: set<Id>)
    requires forall c :: c in s ==> (c in a <==> c in b)
    ensures Without(s, a) == Without(s, b)
  {
    if s != [] {
      assert s[|s| - 1] in s;
      WithoutSame(s[..|s| - 1], a, b);
    }
  }

  lemma {:induction false} WithoutDistinct(s: seq<Id>, gone: set<Id>)
    requires Distinct(s)
    ensures Distinct(Without(s, gone))
  {
    if s != [] {
      var before := s[..|s| - 1];
      WithoutDistinct(before, gone);
      WithoutHolds(before, gone, s[|s| - 1]);
    }
  }

  lemma {:induction false} FoundIsThere(s: seq<Id>, ended: set<Id>, wanted: Id -> bool)
    ensures var f := Found(s, ended, wanted); f.Some? ==> f.value in s && f.value !in ended && wanted(f.value)
    ensures Found(s, ended, wanted).None? ==> forall c :: c in Kept(s, ended, wanted) ==> !wanted(c)
  {
    if s != [] {
      FoundIsThere(s[..|s| - 1], ended, wanted);
    }
  }

  /** Without repeated calls a pass takes out the ended calls and the claimed one. */
  lemma {:induction false} KeptIsWithout(s: seq<Id>, ended: set<Id>, wanted: Id -> bool)
    requires Distinct(s)
    ensures var f := Found(s, ended, wanted);
            Kept(s, ended, wanted) == Without(s, ended + if f.Some? then {f.value} else {})
  {
    if s != [] {
      var before, c := s[..|s| - 1], s[|s| - 1];
      KeptIsWithout(before, ended, wanted);
      FoundIsThere(before, ended, wanted);
      var f := Found(before, ended, wanted);
      assert ended + {} == ended;
      assert f.Some? ==> c != f.value;
      if f.None? && c !in ended && wanted(c) {
        WithoutSame(before, ended, ended + {c});
      }
    }
  }

  lemma ScanConserves(s: System, w: int, dying: set<Id>, seen: set<Id>, wants: (int, Id) -> bool)
    requires Conserved(s) && Enabled(s, Scan(w, dying, seen))
    ensures Conserved(Next(s, Scan(w, dying, seen), wants))
  {
    hide Found, Kept, Without, Distinct;
    var t := Next(s, Scan(w, dying, seen), wants);
    var wanted := c => wants(w, c);
    var found := Found(s.inbox, seen, wanted);
    ScanLeavesLog(s, w, dying, seen, wants);
    FoundIsThere(s.inbox, seen, wanted);
    forall c
      ensures c in s.inbox <==> c in s.log && c !in s.gone
    {
      WithoutHolds(s.log, s.gone, c);
    }
    if found.Some? {
      assert HasClaimed(t, w, found.value);
    }
    forall v, c | v != w
      ensures HasClaimed(t, v, c) <==> HasClaimed(s, v, c)
    {
    }
    forall c | c in t.gone
      ensures c in t.log && (c in t.ended || exists v :: HasClaimed(t, v, c))
    {
      if c in s.gone && c !in s.ended {
        var v :| HasClaimed(s, v, c);
        assert v != w;
        assert HasClaimed(t, v, c);
      }
    }
  }

  lemma ScanLeavesLog(s: System, w: int, dying: set<Id>, seen: set<Id>, wants: (int, Id) -> bool)
    requires Distinct(s.log) && s.inbox == Without(s.log, s.gone) && Enabled(s, Scan(w, dying, seen))
    ensures var t := Next(s, Scan(w, dying, seen), wants); t.inbox == Without(s.log, t.gone)
  {
    hide Found, Kept, Without, Distinct;
    var wanted := c => wants(w, c);
    var found := Found(s.inbox, seen, wanted);
    var taken := if found.Some? then {found.value} else {};
    var t := Next(s, Scan(w, dying, seen), wants);
    WithoutDistinct(s.log, s.gone);
    KeptIsWithout(s.inbox, seen, wanted);
    var more := taken + (set c | c in seen && c in s.inbox);
    WithoutSame(s.inbox, seen + taken, more);
    WithoutTwice(s.log, s.gone, more);
    assert t.gone == s.gone + more;
  }

  lemma DeliveryConserves(s: System, c: Id, wants: (int, Id) -> bool)
    requires Conserved(s) && Enabled(s, Deliver(c))
    ensures Conserved(Next(s, Deliver(c), wants))
  {
    var t := Next(s, Deliver(c), wants);
    assert t.log[..|t.log| - 1] == s.log;
    assert c !in s.gone;
    assert t.inbox == Without(t.log, t.gone);
    hide Without;
    OthersClaim(s, t);
  }

  /** Steps that leave the inbox and the claims alone. */
  lemma QuietConserves(s: System, t: System)
    requires Conserved(s) && t.inbox == s.inbox && t.log == s.log && t.gone == s.gone && s.ended <= t.ended
    requires forall v, c :: HasClaimed(t, v, c) <==> HasClaimed(s, v, c)
    ensures Conserved(t)
  {
    hide Without, Distinct, HasClaimed;
    OthersClaim(s, t);
  }

  lemma StepConserves(s: System, e: Event, wants: (int, Id) -> bool)
    requires Conserved(s) && Enabled(s, e)
    ensures Conserved(Next(s, e, wants))
  {
    hide Conserved;
    match e
    case Scan(w, dying, seen) => ScanConserves(s, w, dying, seen, wants);
    case Deliver(c) => DeliveryConserves(s, c, wants);
    case _ => QuietConserves(s, Next(s, e, wants));
  }

  lemma OthersClaim(s: System, t: System)
    requires forall v, c :: HasClaimed(t, v, c) <==> HasClaimed(s, v, c)
    ensures forall c :: c in s.gone && (exists w :: HasClaimed(s, w, c)) ==> exists w :: HasClaimed(t, w, c)
  {
    forall c | c in s.gone && exists w :: HasClaimed(s, w, c)
      ensures exists w :: HasClaimed(t, w, c)
    {
      var w :| HasClaimed(s, w, c);
      assert HasClaimed(t, w, c);
    }
  }

  /** Steps that leave inbox, log and the sleepers alone, or only wake some. */
  lemma SleepersStay(s: System, t: System, wants: (int, Id) -> bool)
    requires NobodyOversleeps(s, wants)
    requires t.log == s.log && t.signal == s.signal && forall c :: c in t.inbox ==> c in s.inbox
    requires forall w :: Sleeps(t, w) ==> Sleeps(s, w) && t.waiters[w] == s.waiters[w]
    ensures NobodyOversleeps(t, wants)
  {
    forall w, c | Sleeps(t, w) && c in t.inbox && wants(w, c)
      ensures DeliveredSince(t, t.waiters[w].sig, c)
    {
      assert DeliveredSince(s, s.waiters[w].sig, c);
    }
  }

  lemma DeliveryWakes(s: System, c: Id, wants: (int, Id) -> bool)
    requires NobodyOversleeps(s, wants) && Enabled(s, Deliver(c))
    ensures NobodyOversleeps(Next(s, Deliver(c), wants), wants)
  {
    var t := Next(s, Deliver(c), wants);
    assert t.log[|s.log|] == c;
    forall w, d | Sleeps(t, w) && d in t.inbox && wants(w, d)
      ensures DeliveredSince(t, t.waiters[w].sig, d)
    {
      var sig := s.waiters[w].sig;
      assert Sleeps(s, w);
      if d != c {
        assert DeliveredSince(s, sig, d);
        var i :| sig <= i < |s.log| && s.log[i] == d;
        assert t.log[i] == d;
      }
    }
  }

  lemma PassWakes(s: System, w: int, dying: set<Id>, seen: set<Id>, wants: (int, Id) -> bool)
    requires NobodyOversleeps(s, wants) && Enabled(s, Scan(w, dying, seen))
    ensures NobodyOversleeps(Next(s, Scan(w, dying, seen), wants), wants)
  {
    hide Found, Kept, DeliveredSince;
    var t := Next(s, Scan(w, dying, seen), wants);
    var wanted := c => wants(w, c);
    FoundIsThere(s.inbox, seen, wanted);
    forall v, c | Sleeps(t, v) && c in t.inbox && wants(v, c)
      ensures DeliveredSince(t, t.waiters[v].sig, c)
    {
      KeptWasThere(s.inbox, seen, wanted, c);
      assert v != w;
      assert Sleeps(s, v) && DeliveredSince(s, s.waiters[v].sig, c);
      SameLog(s, t, s.waiters[v].sig, c);
    }
  }

  lemma SameLog(s: System, t: System, sig: nat, c: Id)
    requires s.log == t.log
    ensures DeliveredSince(s, sig, c) <==> DeliveredSince(t, sig, c)
  {}

  lemma StepWakes(s: System, e: Event, wants: (int, Id) -> bool)
    requires NobodyOversleeps(s, wants) && Enabled(s, e)
    ensures NobodyOversleeps(Next(s, e, wants), wants)
  {
    match e
    case Scan(w, dying, seen) => PassWakes(s, w, dying, seen, wants);
    case Deliver(c) => DeliveryWakes(s, c, wants);
    case _ =>
      hide NobodyOversleeps;
      SleepersStay(s, Next(s, e, wants), wants);
  }

  lemma {:induction false} KeptWasThere(s: seq<Id>, ended: set<Id>, wanted: Id -> bool, c: Id)
    requires c in Kept(s, ended, wanted)
    ensures c in s
  {
    if c != s[|s| - 1] {
      KeptWasThere(s[..|s| - 1], ended, wanted, c);
    }
  }

  predicate ValidRun(s: System, run: seq<Event>, wants: (int, Id) -> bool)
    decreases |run|
  {
    run == [] || (Enabled(s, run[0]) && ValidRun(Next(s, run[0], wants), run[1..], wants))
  }

  function After(s: System, run: seq<Event>, wants: (int, Id) -> bool): System
    requires ValidRun(s, run, wants)
    decreases |run|
  {
    if run == [] then s else After(Next(s, run[0], wants), run[1..], wants)
  }

  lemma {:induction false} RunKeepsInvariants(s: System, run: seq<Event>, wants: (int, Id) -> bool)
    requires Conserved(s) && NobodyOversleeps(s, wants) && ValidRun(s, run, wants)
    ensures var t := After(s, run, wants); Conserved(t) && NobodyOversleeps(t, wants)
    decreases |run|
  {
    hide Conserved, NobodyOversleeps, Next;
    if run != [] {
      StepConserves(s, run[0], wants);
      StepWakes(s, run[0], wants);
      RunKeepsInvariants(Next(s, run[0], wants), run[1..], wants);
    }
  }

  /**
   * Every call ever delivered is still in the inbox, or claimed by exactly one ExpectCall, or was dropped after it
   * ended; the inbox keeps the order of delivery; nothing is claimed that was not delivered.
   */
  lemma EveryCallIsAccountedFor(run: seq<Event>, wants: (int, Id) -> bool, c: Id)
    requires ValidRun(START, run, wants)
    ensures var t := After(START, run, wants);
            && Distinct(t.log) && t.inbox == Without(t.log, t.gone)
            && (c in t.log ==> (c in t.inbox <==> c !in t.gone))
            && (c in t.inbox ==> c in t.log && forall w :: !HasClaimed(t, w, c))
            && (c in t.gone ==> c in t.log && (c in t.ended || exists w :: HasClaimed(t, w, c)))
            && (forall v, w :: HasClaimed(t, v, c) && HasClaimed(t, w, c) ==> v == w && c in t.log)
  {
    RunKeepsInvariants(START, run, wants);
    var t := After(START, run, wants);
    WithoutHolds(t.log, t.gone, c);
  }

  /**
   * No wake-up is lost: an ExpectCall whose signal is still open has no call to claim in the inbox. So one that
   * gives up although a call it wants is waiting had its signal closed, by the delivery of that very call or an
   * earlier one, and could have woken instead.
   */
  lemma NoLostWakeup(run: seq<Event>, wants: (int, Id) -> bool, w: int, c: Id)
    requires ValidRun(START, run, wants)
    requires var t := After(START, run, wants); Enabled(t, GiveUp(w)) && c in t.inbox && wants(w, c)
    ensures Enabled(After(START, run, wants), Wake(w))
    ensures var t := After(START, run, wants); DeliveredSince(t, t.waiters[w].sig, c)
  {
    RunKeepsInvariants(START, run, wants);
    var t := After(START, run, wants);
    assert Sleeps(t, w);
  }

  /**
   * What an ExpectCall that gives up leaves behind, exactly: the calls it wants that were delivered since it last
   * looked and that nobody has taken out. Nothing it wants is left if there are none, however many signals have
   * been closed.
   */
  lemma GiveUpLeavesIff(run: seq<Event>, wants: (int, Id) -> bool, w: int)
    requires ValidRun(START, run, wants) && Enabled(After(START, run, wants), GiveUp(w))
    ensures var t := After(START, run, wants);
            var u := Next(t, GiveUp(w), wants);
            forall c :: c in u.inbox && wants(w, c) <==>
                        DeliveredSince(t, t.waiters[w].sig, c) && c !in t.gone && wants(w, c)
    ensures var t := After(START, run, wants);
            (exists c :: c in t.inbox && c !in t.ended && wants(w, c)) <==>
            (exists i :: t.waiters[w].sig <= i < |t.log| && t.log[i] !in t.gone + t.ended && wants(w, t.log[i]))
  {
    RunKeepsInvariants(START, run, wants);
    var t := After(START, run, wants);
    hide After, ValidRun, Without, Distinct;
    assert Sleeps(t, w);
    forall c
      ensures c in t.inbox && wants(w, c) <==> DeliveredSince(t, t.waiters[w].sig, c) && c !in t.gone && wants(w, c)
    {
      WithoutHolds(t.log, t.gone, c);
    }
    LiveLeftIff(t, wants, w);
  }

  lemma LiveLeftIff(t: System, wants: (int, Id) -> bool, w: int)
    requires Sleeps(t, w)
    requires forall c :: c in t.inbox && wants(w, c) <==>
                         DeliveredSince(t, t.waiters[w].sig, c) && c !in t.gone && wants(w, c)
    ensures (exists c :: c in t.inbox && c !in t.ended && wants(w, c)) <==>
            (exists i :: t.waiters[w].sig <= i < |t.log| && t.log[i] !in t.gone + t.ended && wants(w, t.log[i]))
  {
    if c :| c in t.inbox && c !in t.ended && wants(w, c) {
      var i :| t.waiters[w].sig <= i < |t.log| && t.log[i] == c;
      assert t.log[i] !in t.gone + t.ended && wants(w, t.log[i]);
    }
    if i :| t.waiters[w].sig <= i < |t.log| && t.log[i] !in t.gone + t.ended && wants(w, t.log[i]) {
      assert DeliveredSince(t, t.waiters[w].sig, t.log[i]);
      assert t.log[i] in t.inbox;
    }
  }

  /**
   * A delivery lets any sleeping ExpectCall that wants the call claim a call, if it looks before anyone else does.
   */
  lemma DeliveryIsClaimed(run: seq<Event>, wants: (int, Id) -> bool, w: int, c: Id)
    requires ValidRun(START, run, wants)
    requires var t := After(START, run, wants);
             Enabled(t, GiveUp(w)) && Enabled(t, Deliver(c)) && c !in t.ended && wants(w, c)
    ensures var t := Next(After(START, run, wants), Deliver(c), wants);
            && Enabled(t, Wake(w)) && Enabled(Next(t, Wake(w), wants), Scan(w, {}, t.ended))
            && Next(Next(t, Wake(w), wants), Scan(w, {}, t.ended), wants).waiters[w].Claimed?
  {
    RunKeepsInvariants(START, run, wants);
    var s := After(START, run, wants);
    var t := Next(s, Deliver(c), wants);
    var wanted := x => wants(w, x);
    assert LiveMatch(t.inbox, |s.inbox|, t.ended, wanted);
    var _ := ScanTakesEarliest(t.inbox, t.ended, wanted);
  }

  /** The race that is left: the time-out fires together with the signal, and the waiting call is not claimed. */
  lemma TimeoutMayLeaveACall(wants: (int, Id) -> bool, w: int, c: Id)
    requires wants(w, c)
    ensures var run := [Expect(w), Scan(w, {}, {}), Deliver(c), GiveUp(w)];
            && ValidRun(START, run, wants)
            && var t := After(START, run, wants); t.inbox == [c] && t.waiters == map[w := GaveUp]
  {
    var run := [Expect(w), Scan(w, {}, {}), Deliver(c), GiveUp(w)];
    var s1 := Next(START, run[0], wants);
    assert s1 == START.(waiters := map[w := Looking]);
    var s2 := Next(s1, run[1], wants);
    assert s2 == START.(waiters := map[w := Waiting(0)]);
    var s3 := Next(s2, run[2], wants);
    assert run[3..] == [GiveUp(w)] && [GiveUp(w)][1..] == [];
    OneStep(s3, GiveUp(w), [], wants);
    OneStep(s2, Deliver(c), run[3..], wants);
    assert run[2..] == [Deliver(c)] + run[3..];
    OneStep(s1, Scan(w, {}, {}), run[2..], wants);
    assert run[1..] == [Scan(w, {}, {})] + run[2..];
    OneStep(START, Expect(w), run[1..], wants);
    assert run == [Expect(w)] + run[1..];
  }

  lemma OneStep(s: System, e: Event, rest: seq<Event>, wants: (int, Id) -> bool)
    requires Enabled(s, e) && ValidRun(Next(s, e, wants), rest, wants)
    ensures ValidRun(s, [e] + rest, wants) && After(s, [e] + rest, wants) == After(Next(s, e, wants), rest, wants)
  {
    assert ([e] + rest)[1..] == rest;
  }
}
