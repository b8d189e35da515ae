/**
 * The bridge table of the B2BUA (testpbx/calls.go): every call is two legs, and transfers re-pair them.
 * A leg is named by its Call-ID.
 */
module Bridges {
  import opened Options

  type Id = nat

  datatype Bridge = Bridge(x: Id, y: Id) {
    function Other(l: Id): Id { if l == x then y else x }
  }

  datatype Table = Table(legs: map<Id, Bridge>, orphans: set<Id>) {
    predicate Knows(l: Id) { l in legs || l in orphans }

    function Partner(l: Id): Id
      requires l in legs
    {
      legs[l].Other(l)
    }

    function Linked(b: Bridge): Table {
      this.(legs := legs[b.x := b][b.y := b])
    }

    function Unlinked(ls: set<Id>): Table {
      Table(legs - ls, orphans - ls)
    }

    /** onBye: a bridged leg takes its partner with it, an orphan goes alone, an unknown leg changes nothing. */
    function Ended(l: Id): Table {
      if l in legs then Unlinked({l, Partner(l)})
      else if l in orphans then Unlinked({l})
      else this
    }

    /**
     * The end of a blind transfer of bridge br: the transferor is left for its own BYE. The source takes the lock
     * twice, to drop the transferor and to link the new bridge; here that is one step.
     */
    function Transferred(br: Bridge, transferor: Id, target: Id): Table {
      Table(legs - {transferor}, orphans + {transferor}).Linked(Bridge(br.Other(transferor), target))
    }

    /**
     * The end of an attended transfer of bridge br that joins it with the consultation bridge cb: the consultation
     * leg is dropped, the far ends are paired. Here, too, the two locked sections of the source are one step.
     */
    function LateJoined(br: Bridge, transferor: Id, cb: Bridge, consult: Id): Table {
      Table(legs - {transferor} - {consult}, orphans + {transferor})
      .Linked(Bridge(br.Other(transferor), cb.Other(consult)))
    }

    /** attended: None is 481, the Replaces value names no leg or one of the bridge itself. */
    function Joined(transferor: Id, consult: Id): Option<Table>
      requires transferor in legs
    {
      if consult !in legs || legs[consult] == legs[transferor] then None
      else Some(LateJoined(legs[transferor], transferor, legs[consult], consult))
    }
  }

  const EMPTY := Table(map[], {})

  function Elements(ls: seq<Id>): set<Id> {
    if ls == [] then {} else Elements(ls[..|ls| - 1]) + {ls[|ls| - 1]}
  }

  /** The maps of the PBX; its mutex makes each method one step. */
  class Pbx {
    var legs: map<Id, Bridge>
    var orphans: set<Id>

    ghost function View(): Table
      reads this
    {
      Table(legs, orphans)
    }

    constructor ()
      ensures View() == EMPTY
    {
      legs, orphans := map[], {};
    }

    method Link(b: Bridge)
      modifies this
      ensures View() == old(View()).Linked(b)
    {
      legs := legs[b.x := b];
      legs := legs[b.y := b];
    }

    method Unlink(ls: seq<Id>)
      modifies this
      ensures View() == old(View()).Unlinked(Elements(ls))
    {
      for i := 0 to |ls|
        invariant View() == old(View()).Unlinked(Elements(ls[..i]))
      {
        assert ls[..i + 1][..i] == ls[..i];
        legs := legs - {ls[i]};
        orphans := orphans - {ls[i]};
      }
      assert ls[..|ls|] == ls;
    }

    method OnBye(l: Id)
      modifies this
      ensures View() == old(View()).Ended(l)
    {
      if l in legs {
        var other := legs[l].Other(l);
        assert [l, other][..1] == [l];
        assert Elements([l]) == {l};
        assert Elements([l, other]) == Elements([l]) + {other};
        Unlink([l, other]);
      } else if l in orphans {
        assert [l][..0] == [] && Elements([l]) == {l};
        Unlink([l]);
      }
    }

    /** Once the target has answered and the kept leg has taken its re-INVITE. */
    method Blind(br: Bridge, transferor: Id, target: Id)
      modifies this
      ensures View() == old(View()).Transferred(br, transferor, target)
    {
      legs := legs - {transferor};
      orphans := orphans + {transferor};
      Link(Bridge(br.Other(transferor), target));
    }

    /** reinvited says whether both far ends took their re-INVITE. */
    method Attended(transferor: Id, consult: Id, reinvited: bool) returns (status: nat)
      requires transferor in legs
      modifies this
      ensures match old(View()).Joined(transferor, consult)
              case None => status == 481 && View() == old(View())
              case Some(t) => if reinvited then status == 200 && View() == t else status == 500 && View() == old(View())
    {
      if consult !in legs || legs[consult] == legs[transferor] {
        return 481;
      }
      if !reinvited {
        return 500;
      }
      var keep, target := legs[transferor].Other(transferor), legs[consult].Other(consult);
      legs := legs - {transferor};
      legs := legs - {consult};
      orphans := orphans + {transferor};
      Link(Bridge(keep, target));
      return 200;
    }
  }

  /* ---- The table stays a perfect matching ---- */

  ghost predicate Matched(t: Table, l: Id) {
    l in t.legs &&
    var b := t.legs[l];
    b.x != b.y && (l == b.x || l == b.y) && b.Other(l) in t.legs && t.legs[b.Other(l)] == b
  }

  /** Every leg has a partner other than itself whose partner it is, and no leg is an orphan as well. */
  ghost predicate Perfect(t: Table) {
    && (forall l :: l in t.legs ==> Matched(t, l))
    && t.legs.Keys !! t.orphans
  }

  datatype Event =
    | Call(a: Id, b: Id, answered: bool)               // the two legs of a new call
    | Bye(l: Id)
    | Blind(transferor: Id, target: Id, connected: bool)
    | Attended(transferor: Id, consult: Id, connected: bool)

  /** Call-IDs of new legs are new. */
  predicate Enabled(t: Table, e: Event) {
    match e
    case Call(a, b, _) => a != b && !t.Knows(a) && !t.Knows(b)
    case Bye(_) => true
    case Blind(transferor, target, _) => transferor in t.legs && !t.Knows(target)
    case Attended(transferor, _, _) => transferor in t.legs
  }

  /** Each handler as one step. A transfer whose re-INVITEs or call fail leaves the table alone. */
  function Next(t: Table, e: Event): Table
    requires Enabled(t, e)
  {
    match e
    case Call(a, b, answered) =>
      var u := t.Linked(Bridge(a, b));
      if answered then u else u.Unlinked({a, b})
    case Bye(l) => t.Ended(l)
    case Blind(transferor, target, connected) =>
      if connected then t.Transferred(t.legs[transferor], transferor, target) else t
    case Attended(transferor, consult, connected) =>
      var u := t.Joined(transferor, consult);
      if connected && u.Some? then u.value else t
  }

  /**
   * Re-pairing keep and target keeps the matching when everything they and the removed legs were paired with is
   * among them.
   */
  lemma RepairKeepsMatching(t: Table, gone: set<Id>, orphan: Id, keep: Id, target: Id)
    requires Perfect(t) && keep != target && keep !in gone && target !in gone && orphan in gone
    requires keep !in t.orphans && target !in t.orphans
    requires forall l :: l in t.legs && (l in gone || l == keep || l == target) ==>
               var p := t.Partner(l); p in gone || p == keep || p == target
    ensures Perfect(Table(t.legs - gone, t.orphans + {orphan}).Linked(Bridge(keep, target)))
  {
    var b := Bridge(keep, target);
    var u := Table(t.legs - gone, t.orphans + {orphan}).Linked(b);
    forall l | l in u.legs
      ensures Matched(u, l)
    {
      if l != keep && l != target {
        UntouchedStaysMatched(t, gone, orphan, keep, target, l);
      }
    }
  }

  lemma UntouchedStaysMatched(t: Table, gone: set<Id>, orphan: Id, keep: Id, target: Id, l: Id)
    requires Perfect(t) && l in t.legs && l !in gone && l != keep && l != target
    requires var p := t.Partner(l); p in t.legs && p in gone + {keep, target} ==> t.Partner(p) in gone + {keep, target}
    ensures Matched(Table(t.legs - gone, t.orphans + {orphan}).Linked(Bridge(keep, target)), l)
  {
    PartnersMutual(t, l);
    assert Matched(t, l);
    hide Perfect;
  }

  lemma PartnersMutual(t: Table, l: Id)
    requires Perfect(t) && l in t.legs
    ensures l !in t.orphans && t.Partner(l) in t.legs && t.Partner(l) != l && t.Partner(t.Partner(l)) == l
            && t.legs[t.Partner(l)] == t.legs[l]
  {
    assert Matched(t, l);
  }

  lemma EndKeepsMatching(t: Table, l: Id)
    requires Perfect(t)
    ensures Perfect(t.Ended(l))
    ensures !t.Ended(l).Knows(l)
  {
    var u := t.Ended(l);
    forall m | m in u.legs
      ensures Matched(u, m)
    {
      assert Matched(t, m);
      PartnersMutual(t, m);
      if l in t.legs {
        PartnersMutual(t, l);
      }
    }
  }

  /**
   * A BYE ends one call: a bridged leg leaves with its partner and an orphan alone; every other leg keeps its
   * bridge, every other orphan stays, and a BYE for a leg that is not known changes nothing.
   */
  lemma ByeEndsOneCall(t: Table, l: Id)
    requires Perfect(t)
    ensures var u := t.Ended(l);
            && (forall k :: k in u.legs <==> k in t.legs && k != l && !(l in t.legs && k == t.Partner(l)))
            && (forall k :: k in u.legs ==> u.legs[k] == t.legs[k])
            && (forall k :: k in u.orphans <==> k in t.orphans && k != l)
            && (!t.Knows(l) ==> u == t)
  {
    if l in t.legs {
      PartnersMutual(t, l);
      PartnersMutual(t, t.Partner(l));
    }
    hide Perfect;
  }

  /** The call that has not been answered leaves no trace, the one that has is bridged; the others are as before. */
  lemma CallAddsOneBridge(t: Table, a: Id, b: Id)
    requires Enabled(t, Call(a, b, true))
    ensures Next(t, Call(a, b, false)) == t
    ensures var u := Next(t, Call(a, b, true));
            && u.orphans == t.orphans && u.legs.Keys == t.legs.Keys + {a, b}
            && u.Partner(a) == b && u.Partner(b) == a && forall k :: k in t.legs ==> u.legs[k] == t.legs[k]
  {
    var u := t.Linked(Bridge(a, b));
    assert u.Unlinked({a, b}).legs == t.legs && u.Unlinked({a, b}).orphans == t.orphans;
  }

  /**
   * Blind transfer: the kept leg is paired with the target, the transferor is an orphan, everyone else is as before.
   */
  lemma BlindTransfer(t: Table, transferor: Id, target: Id)
    requires Perfect(t) && transferor in t.legs && !t.Knows(target)
    ensures var u, keep := Next(t, Blind(transferor, target, true)), t.Partner(transferor);
            && Perfect(u)
            && keep in u.legs && u.Partner(keep) == target && target in u.legs && u.Partner(target) == keep
            && transferor !in u.legs && u.orphans == t.orphans + {transferor}
            && (forall l :: l != transferor && l != keep && l != target ==>
                  (l in u.legs <==> l in t.legs) && (l in t.legs ==> u.legs[l] == t.legs[l]))
  {
    hide Matched;
    PartnersMutual(t, transferor);
    var keep := t.Partner(transferor);
    assert t.Partner(keep) == transferor && target !in t.legs;
    RepairKeepsMatching(t, {transferor}, transferor, keep, target);
    hide Perfect, Matched;
  }

  /**
   * Attended transfer: the two far ends are paired, the consultation leg is gone, the transferor is an orphan. A
   * Replaces value that names no bridged leg, or either leg of the transferor's own bridge, is refused.
   */
  lemma AttendedTransfer(t: Table, transferor: Id, consult: Id)
    requires Perfect(t) && transferor in t.legs
    ensures t.Joined(transferor, consult).None? <==>
              consult !in t.legs || consult == transferor || consult == t.Partner(transferor)
    ensures t.Joined(transferor, consult).Some? ==>
              var u, keep, far := t.Joined(transferor, consult).value, t.Partner(transferor), t.Partner(consult);
              && Perfect(u)
              && keep in u.legs && u.Partner(keep) == far && far in u.legs && u.Partner(far) == keep
              && !u.Knows(consult) && transferor !in u.legs && u.orphans == t.orphans + {transferor}
              && (forall l :: l !in {transferor, consult, keep, far} ==>
                    (l in u.legs <==> l in t.legs) && (l in t.legs ==> u.legs[l] == t.legs[l]))
  {
    hide Perfect, Matched;
    PartnersMutual(t, transferor);
    if consult in t.legs {
      PartnersMutual(t, consult);
      OneBridgeTwoLegs(t, transferor, consult);
      if t.legs[consult] != t.legs[transferor] {
        JoinKeepsMatching(t, transferor, consult);
      }
    }
  }

  lemma JoinKeepsMatching(t: Table, transferor: Id, consult: Id)
    requires Perfect(t) && transferor in t.legs && consult in t.legs && t.legs[consult] != t.legs[transferor]
    ensures Perfect(t.Joined(transferor, consult).value)
    ensures {t.Partner(transferor), t.Partner(consult)} !! {transferor, consult}
    ensures t.Partner(transferor) != t.Partner(consult)
    ensures t.Partner(transferor) !in t.orphans
  {
    hide Matched;
    PartnersMutual(t, transferor);
    PartnersMutual(t, consult);
    var keep, far := t.Partner(transferor), t.Partner(consult);
    assert keep != far && keep != consult && far != transferor;
    var gone := {transferor, consult};
    assert t.legs - {transferor} - {consult} == t.legs - gone;
    forall l | l in t.legs && (l in gone || l == keep || l == far)
      ensures var p := t.Partner(l); p in gone || p == keep || p == far
    {
    }
    RepairKeepsMatching(t, gone, transferor, keep, far);
  }

  lemma OneBridgeTwoLegs(t: Table, l: Id, m: Id)
    requires Perfect(t) && l in t.legs && m in t.legs
    ensures t.legs[l] == t.legs[m] <==> m == l || m == t.Partner(l)
  {
    PartnersMutual(t, l);
    assert Matched(t, l) && Matched(t, m);
  }

  lemma StepKeepsMatching(t: Table, e: Event)
    requires Perfect(t) && Enabled(t, e)
    ensures Perfect(Next(t, e))
  {
    match e
    case Call(a, b, answered) =>
      var u := t.Linked(Bridge(a, b));
      forall l | l in u.legs
        ensures Matched(u, l)
      {
        if l != a && l != b {
          assert Matched(t, l);
          PartnersMutual(t, l);
        }
      }
      if !answered {
        assert u.Unlinked({a, b}).legs == t.legs;
      }
    case Bye(l) => EndKeepsMatching(t, l);
    case Blind(transferor, target, connected) =>
      if connected {
        BlindTransfer(t, transferor, target);
      }
    case Attended(transferor, consult, _) => AttendedTransfer(t, transferor, consult);
  }

  predicate ValidRun(t: Table, run: seq<Event>)
    decreases |run|
  {
    run == [] || (Enabled(t, run[0]) && ValidRun(Next(t, run[0]), run[1..]))
  }

  function After(t: Table, run: seq<Event>): Table
    requires ValidRun(t, run)
    decreases |run|
  {
    if run == [] then t else After(Next(t, run[0]), run[1..])
  }

  /** After any sequence of calls, BYEs and transfers every bridged leg has exactly one partner, which has it. */
  lemma {:induction false} AlwaysPerfect(t: Table, run: seq<Event>)
    requires Perfect(t) && ValidRun(t, run)
    ensures Perfect(After(t, run))
    decreases |run|
  {
    if run != [] {
      StepKeepsMatching(t, run[0]);
      AlwaysPerfect(Next(t, run[0]), run[1..]);
    }
  }

  lemma TableStaysAMatching(run: seq<Event>, l: Id)
    requires ValidRun(EMPTY, run)
    ensures var t := After(EMPTY, run);
            && (l in t.legs ==>
                  t.Partner(l) in t.legs && t.Partner(l) != l && t.Partner(t.Partner(l)) == l && l !in t.orphans)
            && !After(EMPTY, run).Ended(l).Knows(l)
  {
    AlwaysPerfect(EMPTY, run);
    EndKeepsMatching(After(EMPTY, run), l);
    if l in After(EMPTY, run).legs {
      PartnersMutual(After(EMPTY, run), l);
    }
  }

  /* ---- Blind transfers that are not one step ---- */

  /** Every leg of the table among these has its partner among them, too. */
  predicate Closed(t: Table, ls: set<Id>) {
    forall l :: l in ls && l in t.legs ==> t.Partner(l) in ls
  }

  lemma OpenRepairBreaks(t: Table, gone: set<Id>, orphan: Id, keep: Id, target: Id, l: Id)
    requires Perfect(t) && keep != target && keep !in gone && target !in gone
    requires l in gone + {keep, target} && l in t.legs && t.Partner(l) !in gone + {keep, target}
    ensures !Perfect(Table(t.legs - gone, t.orphans + {orphan}).Linked(Bridge(keep, target)))
  {
    PartnersMutual(t, l);
    var p := t.Partner(l);
    var u := Table(t.legs - gone, t.orphans + {orphan}).Linked(Bridge(keep, target));
    assert u.legs[p] == t.legs[p];
    assert Matched(t, p) && t.Partner(p) == l;
    if l !in gone {
      assert u.legs[l] == Bridge(keep, target) != t.legs[p];
    }
    assert !Matched(u, p);
  }

  lemma OrphanRepairBreaks(t: Table, gone: set<Id>, orphan: Id, keep: Id, target: Id)
    requires keep in t.orphans || target in t.orphans
    ensures !Perfect(Table(t.legs - gone, t.orphans + {orphan}).Linked(Bridge(keep, target)))
  {
    var u := Table(t.legs - gone, t.orphans + {orphan}).Linked(Bridge(keep, target));
    assert keep in u.legs && target in u.legs;
  }

  /** Re-pairing keeps the matching exactly when it involves whole pairs and no orphan. */
  lemma RepairKeepsMatchingIff(t: Table, gone: set<Id>, orphan: Id, keep: Id, target: Id)
    requires Perfect(t) && keep != target && keep !in gone && target !in gone && orphan in gone
    ensures Perfect(Table(t.legs - gone, t.orphans + {orphan}).Linked(Bridge(keep, target))) <==>
              keep !in t.orphans && target !in t.orphans && Closed(t, gone + {keep, target})
  {
    hide Perfect, Matched;
    if keep in t.orphans || target in t.orphans {
      OrphanRepairBreaks(t, gone, orphan, keep, target);
    } else if l :| l in gone + {keep, target} && l in t.legs && t.Partner(l) !in gone + {keep, target} {
      OpenRepairBreaks(t, gone, orphan, keep, target, l);
    } else {
      RepairKeepsMatching(t, gone, orphan, keep, target);
    }
  }

  /**
   * blind looks the bridge up, dials without the lock, and re-pairs without another look. Finishing keeps the
   * matching exactly when the bridge is still there or both of its legs have left the table, and the kept leg is
   * no orphan.
   */
  lemma LateTransferKeepsMatchingIff(t: Table, br: Bridge, transferor: Id, target: Id)
    requires Perfect(t) && br.x != br.y && (transferor == br.x || transferor == br.y)
    requires !t.Knows(target) && target != br.x && target != br.y
    ensures var keep := br.Other(transferor);
            Perfect(t.Transferred(br, transferor, target)) <==>
              && keep !in t.orphans
              && ((transferor in t.legs && t.Partner(transferor) == keep) || (transferor !in t.legs && keep !in t.legs))
  {
    var keep := br.Other(transferor);
    RepairKeepsMatchingIff(t, {transferor}, transferor, keep, target);
    hide Perfect;
    if transferor in t.legs {
      PartnersMutual(t, transferor);
    }
    if keep in t.legs {
      PartnersMutual(t, keep);
    }
  }

  /**
   * attended looks both bridges up and sends two re-INVITEs before it joins them, without another look. Finishing
   * keeps the matching exactly when no leg of the two bridges has been paired with a leg outside them meanwhile
   * and neither far end is an orphan.
   */
  lemma LateJoinKeepsMatchingIff(t: Table, br: Bridge, transferor: Id, cb: Bridge, consult: Id)
    requires Perfect(t) && AllDifferent(br.x, br.y, cb.x, cb.y)
    requires (transferor == br.x || transferor == br.y) && (consult == cb.x || consult == cb.y)
    ensures var keep, far := br.Other(transferor), cb.Other(consult);
            Perfect(t.LateJoined(br, transferor, cb, consult)) <==>
              keep !in t.orphans && far !in t.orphans && Closed(t, {br.x, br.y, cb.x, cb.y})
  {
    var keep, far, gone := br.Other(transferor), cb.Other(consult), {transferor, consult};
    assert t.legs - {transferor} - {consult} == t.legs - gone;
    assert gone + {keep, far} == {br.x, br.y, cb.x, cb.y};
    hide Perfect;
    RepairKeepsMatchingIff(t, gone, transferor, keep, far);
  }

  /** Both ends of one call transfer each other at once: the second one to finish breaks the table. */
  lemma CrossingTransfersBreakTable(x: Id, y: Id, n1: Id, n2: Id)
    requires AllDifferent(x, y, n1, n2)
    ensures var t := EMPTY.Linked(Bridge(x, y));
            var u := t.Transferred(Bridge(x, y), x, n1);
            Perfect(t) && Perfect(u) && !Perfect(u.Transferred(Bridge(x, y), y, n2))
  {
    StepKeepsMatching(EMPTY, Call(x, y, true));
    var t := EMPTY.Linked(Bridge(x, y));
    LateTransferKeepsMatchingIff(t, Bridge(x, y), x, n1);
    LateTransferKeepsMatchingIff(t.Transferred(Bridge(x, y), x, n1), Bridge(x, y), y, n2);
  }

  /**
   * The other end of the call transfers the transferor away while the re-INVITEs of an attended transfer are under
   * way: joining the bridges then breaks the table.
   */
  lemma CrossingJoinBreaksTable(x: Id, y: Id, u: Id, v: Id, n: Id)
    requires AllDifferent(x, y, u, v) && n !in {x, y, u, v}
    ensures var t := EMPTY.Linked(Bridge(x, y)).Linked(Bridge(u, v));
            var late := t.Transferred(Bridge(x, y), y, n);
            Perfect(t) && Perfect(late) && !Perfect(late.LateJoined(Bridge(x, y), x, Bridge(u, v), u))
  {
    TwoCalls(x, y, u, v);
    var t := EMPTY.Linked(Bridge(x, y)).Linked(Bridge(u, v));
    hide Perfect, Table.Linked;
    TransferOrphans(t, Bridge(x, y), y, n);
    BlindTransfer(t, y, n);
    LateJoinKeepsMatchingIff(t.Transferred(Bridge(x, y), y, n), Bridge(x, y), x, Bridge(u, v), u);
  }

  predicate AllDifferent(a: Id, b: Id, c: Id, d: Id) {
    a != b && a != c && a != d && b != c && b != d && c != d
  }

  lemma TwoCalls(x: Id, y: Id, u: Id, v: Id)
    requires x != y && u != v && {x, y} !! {u, v}
    ensures var t := EMPTY.Linked(Bridge(x, y)).Linked(Bridge(u, v));
            && Perfect(t) && t.orphans == {} && t.legs.Keys == {x, y, u, v} && t.legs[y] == Bridge(x, y)
  {
    StepKeepsMatching(EMPTY, Call(x, y, true));
    StepKeepsMatching(EMPTY.Linked(Bridge(x, y)), Call(u, v, true));
  }

  lemma TransferOrphans(t: Table, br: Bridge, transferor: Id, target: Id)
    ensures t.Transferred(br, transferor, target).orphans == t.orphans + {transferor}
  {}

  /* ---- Departed legs ---- */

  /** No leg has come back, or appeared at all, but the target of the transfer. */
  ghost predicate NobodyReturns(t: Table, u: Table, target: Id) {
    forall l :: l != target && u.Knows(l) ==> t.Knows(l)
  }

  /**
   * A blind transfer that finishes brings no leg back exactly when both legs of its bridge are still known:
   * bridged, with whomever, or orphans.
   */
  lemma LateTransferRevivesNobodyIff(t: Table, br: Bridge, transferor: Id, target: Id)
    requires (transferor == br.x || transferor == br.y) && target != br.x && target != br.y
    ensures NobodyReturns(t, t.Transferred(br, transferor, target), target) <==> t.Knows(br.x) && t.Knows(br.y)
  {
    var u, keep := t.Transferred(br, transferor, target), br.Other(transferor);
    assert u.Knows(transferor) && u.Knows(keep);
    assert forall l :: u.Knows(l) <==> t.Knows(l) || l == transferor || l == keep || l == target;
  }

  /**
   * An attended transfer brings no leg back exactly when both legs of the transferor's bridge and the far end of the
   * consultation call are still known; the consultation leg itself is dropped either way.
   */
  lemma LateJoinRevivesNobodyIff(t: Table, br: Bridge, transferor: Id, cb: Bridge, consult: Id)
    requires AllDifferent(br.x, br.y, cb.x, cb.y)
    requires (transferor == br.x || transferor == br.y) && (consult == cb.x || consult == cb.y)
    ensures var u := t.LateJoined(br, transferor, cb, consult);
            (forall l :: u.Knows(l) ==> t.Knows(l))
            <==> t.Knows(br.x) && t.Knows(br.y) && t.Knows(cb.Other(consult))
  {
    var u, keep, far := t.LateJoined(br, transferor, cb, consult), br.Other(transferor), cb.Other(consult);
    assert u.Knows(transferor) && u.Knows(keep) && u.Knows(far);
    assert forall l :: u.Knows(l) ==> t.Knows(l) || l == transferor || l == keep || l == far;
  }

  /** A BYE while the re-INVITEs of an attended transfer are under way is undone, too. */
  lemma ByeDuringJoinIsUndone(x: Id, y: Id, u: Id, v: Id)
    requires AllDifferent(x, y, u, v)
    ensures var t := EMPTY.Linked(Bridge(x, y)).Linked(Bridge(u, v)).Ended(v);
            !t.Knows(v) && v in t.LateJoined(Bridge(x, y), x, Bridge(u, v), u).legs
  {}

  /** A BYE while the call is being dialled is undone: the leg that hung up is bridged again. */
  lemma ByeDuringTransferIsUndone(x: Id, y: Id, n: Id)
    requires x != y && n != x && n != y
    ensures var u := EMPTY.Linked(Bridge(x, y)).Ended(y);
            !u.Knows(y) && y in u.Transferred(Bridge(x, y), x, n).legs
  {}
}
