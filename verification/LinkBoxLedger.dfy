/**
 Books kept beside a run of the link boxes, from what the arms answered and what the sweeps took:
 over one life of a box everything adds up, and a write acts only on a live box pinned under the key
 its caller was verified with.
 */
module LinkBoxLedger {
  import opened Common
  import opened Records
  import opened LinkBoxes
  import opened LinkBoxRuns

  /** One life of a box, as its callers and the sweeper saw it. */
  datatype Tally = Tally(
    taken: nat,         // deposits answered OK and not as a replay
    acknowledged: nat,  // deposits a Collect deleted through its acknowledgement
    discarded: nat,     // deposits a Retire answered it discarded
    swept: nat,         // deposits a sweep pruned
    refused: nat,       // deposits answered rate-limited
    reported: nat)      // refusals the Collects reported

  type Ledger = map<BoxId, Tally>

  function Acknowledged(standing: seq<DepositRow>, through: nat): nat {
    if |standing| == 0 then 0
    else Acknowledged(standing[..|standing| - 1], through) + if standing[|standing| - 1].depositId <= through then 1 else 0
  }

  /** The entry one answer makes. */
  function Entry(tally: Tally, op: Op, answer: Answer, standing: seq<DepositRow>): Tally {
    match (op, answer)
    case (Deposit(_, _, _, _), Deposited(reason, _, _, _, replayed)) =>
      if reason == ReasonOk && !replayed then tally.(taken := tally.taken + 1)
      else if reason == ReasonCardRateLimited then tally.(refused := tally.refused + 1)
      else tally
    case (Collect(_, _, _, ackThrough, _), Collected(reason, _, _, refused, _, _)) =>
      if reason == ReasonOk
      then tally.(acknowledged := tally.acknowledged + Acknowledged(standing, ackThrough), reported := tally.reported + refused)
      else tally
    case (Retire(_, _), Retired(reason, discarded)) =>
      if reason == ReasonOk then tally.(discarded := tally.discarded + discarded) else tally
    case _ => tally
  }

  /** A new row starts a new page; every other arm writes on the page of the box it named. */
  ghost function BookArm(ledger: Ledger, b: Boxes, op: Op, now: Time): Ledger {
    var (b', answer) := Step(b, op, now);
    if op.CountLive? then ledger
    else if op.Register? && op.id !in b.rows && op.id in b'.rows then ledger[op.id := Tally(0, 0, 0, 0, 0, 0)]
    else if op.id in ledger then ledger[op.id := Entry(ledger[op.id], op, answer, Standing(b, op.id))]
    else ledger
  }

  /** The chosen deposits of one box. */
  ghost function PrunedAt(pruned: set<Due>, id: BoxId): set<Due> {
    set d | d in pruned && d.box == id
  }

  ghost function BookSweep(ledger: Ledger, b': Boxes, pruned: set<Due>): Ledger {
    map id | id in ledger && id in b'.rows :: ledger[id].(swept := ledger[id].swept + |PrunedAt(pruned, id)|)
  }

  /** One page balances its box. */
  ghost predicate Balanced(row: BoxRow, standing: seq<DepositRow>, tally: Tally) {
    && tally.taken == row.nextDepositId - 1 <= LINK_BOX_DEPOSITS
    && tally.taken == |standing| + tally.acknowledged + tally.discarded + tally.swept
    && tally.refused == tally.reported + row.refusedCount
  }

  ghost predicate BooksBalance(b: Boxes, ledger: Ledger) {
    && ledger.Keys == b.rows.Keys
    && (forall id :: id in b.rows ==> Balanced(b.rows[id], Standing(b, id), ledger[id]))
  }

  lemma {:induction false} AfterIsTheRest(standing: seq<DepositRow>, through: nat)
    ensures |After(standing, through)| + Acknowledged(standing, through) == |standing|
  {
    if |standing| != 0 { AfterIsTheRest(standing[..|standing| - 1], through); }
  }

  /** What an arm answers about one box is what it did to that box. */
  lemma EntryBalances(b: Boxes, op: Op, now: Time, tally: Tally)
    requires BoxesInv(b) && op.CountLive? == false && op.id in b.rows
    requires Balanced(b.rows[op.id], Standing(b, op.id), tally)
    ensures var (b', answer) := Step(b, op, now);
            op.id in b'.rows && Balanced(b'.rows[op.id], Standing(b', op.id), Entry(tally, op, answer, Standing(b, op.id)))
  {
    hide BoxesInv, LinkBoxTime, FindHash, After, LiveIds;
    SoundAt(b, op.id);
    if op.Collect? { AfterIsTheRest(Standing(b, op.id), op.ackThrough); }
  }

  lemma StepElsewhere(b: Boxes, op: Op, now: Time)
    requires !op.CountLive?
    ensures SameElsewhere(b, Step(b, op, now).0, op.id)
  {
    hide LinkBoxTime, FindHash, After, LiveIds;
  }

  lemma ArmBalances(b: Boxes, ledger: Ledger, op: Op, now: Time)
    requires BoxesInv(b) && BooksBalance(b, ledger)
    ensures BooksBalance(Step(b, op, now).0, BookArm(ledger, b, op, now))
  {
    if !op.CountLive? { NamingArmBalances(b, ledger, op, now); }
  }

  lemma NamingArmBalances(b: Boxes, ledger: Ledger, op: Op, now: Time)
    requires BoxesInv(b) && BooksBalance(b, ledger) && !op.CountLive?
    ensures BooksBalance(Step(b, op, now).0, BookArm(ledger, b, op, now))
  {
    hide Step, BookArm, BoxesInv, Balanced;
    StepElsewhere(b, op, now);
    NamedBoxBalances(b, ledger, op, now);
    var b', ledger' := Step(b, op, now).0, BookArm(ledger, b, op, now);
    forall id | id in b'.rows ensures id in ledger' && Balanced(b'.rows[id], Standing(b', id), ledger'[id]) {
      if id != op.id { assert Standing(b', id) == Standing(b, id); }
    }
    assert ledger'.Keys == b'.rows.Keys;
  }

  lemma NamedBoxBalances(b: Boxes, ledger: Ledger, op: Op, now: Time)
    requires BoxesInv(b) && BooksBalance(b, ledger) && !op.CountLive?
    ensures var b', ledger' := Step(b, op, now).0, BookArm(ledger, b, op, now);
            && (op.id in b'.rows <==> op.id in ledger')
            && (op.id in b'.rows ==> Balanced(b'.rows[op.id], Standing(b', op.id), ledger'[op.id]))
            && (forall id :: id != op.id ==> (id in ledger' <==> id in ledger) && (id in ledger ==> ledger'[id] == ledger[id]))
  {
    hide LinkBoxTime, FindHash, After, LiveIds, BoxesInv, TakeDeposit;
    if op.id in b.rows {
      EntryBalances(b, op, now, ledger[op.id]);
    } else {
      NoRowNoDeposit(b, op.id);
    }
  }

  // ---- sweeps ----

  ghost function DueIn(standing: seq<DepositRow>, gone: set<Due>): set<Due> {
    if |standing| == 0 then {}
    else
      var last := DueOf(standing[|standing| - 1]);
      DueIn(standing[..|standing| - 1], gone) + if last in gone then {last} else {}
  }

  lemma {:induction false} DueInMembers(standing: seq<DepositRow>, gone: set<Due>)
    ensures forall d :: d in DueIn(standing, gone) <==>
              (d in gone && exists i :: 0 <= i < |standing| && d == DueOf(standing[i]))
  {
    if |standing| != 0 {
      var n := |standing| - 1;
      DueInMembers(standing[..n], gone);
      forall d ensures d in DueIn(standing, gone) <==>
                 (d in gone && exists i :: 0 <= i < |standing| && d == DueOf(standing[i]))
      {
        if i :| 0 <= i < |standing| && d == DueOf(standing[i]) {
          if i < n { assert standing[..n][i] == standing[i]; }
        }
      }
    }
  }

  lemma LastIsNew(standing: seq<DepositRow>, gone: set<Due>)
    requires |standing| != 0
    requires forall i, j :: 0 <= i < j < |standing| ==> standing[i].depositId != standing[j].depositId
    ensures DueOf(standing[|standing| - 1]) !in DueIn(standing[..|standing| - 1], gone)
  {
    hide DueIn;
    DueInMembers(standing[..|standing| - 1], gone);
  }

  lemma LastKeptOrGone(standing: seq<DepositRow>, gone: set<Due>)
    ensures |standing| == 0 ==> Keep(standing, gone) == [] && DueIn(standing, gone) == {}
    ensures |standing| != 0 ==>
              var rest, last := standing[..|standing| - 1], DueOf(standing[|standing| - 1]);
              && |Keep(standing, gone)| == |Keep(rest, gone)| + (if last in gone then 0 else 1)
              && DueIn(standing, gone) == DueIn(rest, gone) + (if last in gone then {last} else {})
  {
  }

  /** With distinct ids standing, a sweep shortens a box by exactly the chosen deposits it held. */
  lemma {:induction false} KeepIsTheRest(standing: seq<DepositRow>, gone: set<Due>)
    requires forall i, j :: 0 <= i < j < |standing| ==> standing[i].depositId != standing[j].depositId
    ensures |Keep(standing, gone)| + |DueIn(standing, gone)| == |standing|
  {
    hide Keep, DueIn;
    LastKeptOrGone(standing, gone);
    if |standing| != 0 {
      KeepIsTheRest(standing[..|standing| - 1], gone);
      LastIsNew(standing, gone);
    }
  }

  lemma PrunedAreHeld(b: Boxes, t: Time, pruned: set<Due>, id: BoxId)
    requires BoxesInv(b) && pruned <= DueDeposits(b, t) && id in b.rows
    ensures DueIn(Standing(b, id), pruned) == PrunedAt(pruned, id)
  {
    SoundAt(b, id);
    DueInMembers(Standing(b, id), pruned);
    forall d | d in PrunedAt(pruned, id) ensures d in DueIn(Standing(b, id), pruned) {
      var o, i :| o in b.deposits && 0 <= i < |b.deposits[o]| && b.deposits[o][i].pruneAfter <= t && d == DueOf(b.deposits[o][i]);
      SoundAt(b, o);
      assert Standing(b, o)[i].box == o;
    }
  }

  lemma SweptBoxBalances(b: Boxes, now: Time, bounds: Bounds, pruned: set<Due>, reclaimed: set<Due>, id: BoxId, tally: Tally)
    requires BoxesInv(b) && SweepChooses(b, now, bounds, pruned, reclaimed)
    requires id in Swept(b, pruned, reclaimed).rows && id in b.rows && Balanced(b.rows[id], Standing(b, id), tally)
    ensures var b' := Swept(b, pruned, reclaimed);
            Balanced(b'.rows[id], Standing(b', id), tally.(swept := tally.swept + |PrunedAt(pruned, id)|))
  {
    hide BoxesInv, Keep, Touched, LinkBoxTime, DueDeposits, DueBoxes, PrunedAt;
    SoundAt(b, id);
    PrunedStanding(b, pruned, id);
    PrunedAreHeld(b, LinkBoxTime(now), pruned, id);
    KeepIsTheRest(Standing(b, id), pruned);
  }

  lemma SweepBalances(b: Boxes, ledger: Ledger, now: Time, bounds: Bounds, pruned: set<Due>, reclaimed: set<Due>)
    requires BoxesInv(b) && BooksBalance(b, ledger) && SweepChooses(b, now, bounds, pruned, reclaimed)
    ensures var b' := Swept(b, pruned, reclaimed);
            BooksBalance(b', BookSweep(ledger, b', pruned))
  {
    hide BoxesInv, Balanced, SweepChooses, Swept;
    var b' := Swept(b, pruned, reclaimed);
    forall id | id in b'.rows ensures id in b.rows && Balanced(b'.rows[id], Standing(b', id), BookSweep(ledger, b', pruned)[id]) {
      SweptRow(b, pruned, reclaimed, id);
      SweptBoxBalances(b, now, bounds, pruned, reclaimed, id, ledger[id]);
    }
  }

  ghost function Books(b: Boxes, ledger: Ledger, events: seq<Event>): (Boxes, Ledger)
    decreases |events|
  {
    if |events| == 0 then (b, ledger)
    else
      match events[0]
      case Arm(op, now) => Books(Step(b, op, now).0, BookArm(ledger, b, op, now), events[1..])
      case SweepBatch(_, _, pruned, reclaimed) =>
        var b' := Swept(b, pruned, reclaimed);
        Books(b', BookSweep(ledger, b', pruned), events[1..])
  }

  /**
   Over every run: a box's accepted deposits are its id counter less one and never more than two,
   and are those standing plus those acknowledged, discarded or swept; the refusals its Collects
   reported and those not yet reported are the refusals given.
   */
  lemma {:induction false} EveryLifeAddsUp(b: Boxes, ledger: Ledger, events: seq<Event>)
    requires BoxesInv(b) && BooksBalance(b, ledger) && Legal(b, events)
    ensures var (b', ledger') := Books(b, ledger, events);
            BoxesInv(b') && BooksBalance(b', ledger')
    decreases |events|
  {
    hide BoxesInv, BooksBalance, Step, BookArm, BookSweep, Swept, SweepChooses;
    if |events| != 0 {
      match events[0]
      case Arm(op, now) =>
        StepKeepsInv(b, op, now);
        ArmBalances(b, ledger, op, now);
        EveryLifeAddsUp(Step(b, op, now).0, BookArm(ledger, b, op, now), events[1..]);
      case SweepBatch(now, bounds, pruned, reclaimed) =>
        var b' := Swept(b, pruned, reclaimed);
        SweepKeepsInv(b, pruned, reclaimed);
        SweepBalances(b, ledger, now, bounds, pruned, reclaimed);
        EveryLifeAddsUp(b', BookSweep(ledger, b', pruned), events[1..]);
    }
  }

  // ---- a write acts on the box it was verified against ----

  /** The key of a row that an arm's signature was verified under. */
  function PinnedKey(row: BoxRow, op: Op): Bytes
    requires op.Deposit? || op.Collect? || op.Retire?
  {
    if op.Deposit? then row.depositPub else row.collectPub
  }

  /**
   Whatever has happened at the id since the signature was checked, a write that changes anything or
   answers OK acts on a box that is live and pinned under the very key the caller verified, and on
   nothing else.
   */
  lemma WriteActsOnTheVerifiedBox(b: Boxes, op: Op, now: Time)
    requires ShapeError(op).None? && (op.Deposit? || op.Collect? || op.Retire?)
    ensures var (b', answer) := Step(b, op, now);
            var acts := op.id in b.rows && Live(b.rows[op.id], LinkBoxTime(now)) && PinnedKey(b.rows[op.id], op) == op.verifiedPub;
            && (acts <==> answer.reason != ReasonCardRetired)
            && (!acts ==> b' == b)
            && SameElsewhere(b, b', op.id)
  {
    hide FindHash, After, LinkBoxTime;
  }

  /** Keys, card and expiry are fixed for a row's whole life: no arm and no sweep moves them. */
  ghost predicate SameLife(a: BoxRow, b: BoxRow) {
    && a.depositPub == b.depositPub && a.collectPub == b.collectPub && a.publicCt == b.publicCt
    && a.registerTime == b.registerTime && a.expireTime == b.expireTime && a.reclaimAfter == b.reclaimAfter
    && a.nextDepositId <= b.nextDepositId
    && (a.retiredTime.Some? ==> b.retiredTime == a.retiredTime)
  }

  lemma StepKeepsLives(b: Boxes, op: Op, now: Time, id: BoxId)
    requires id in b.rows
    ensures id in Step(b, op, now).0.rows && SameLife(b.rows[id], Step(b, op, now).0.rows[id])
  {
    hide FindHash, After, LinkBoxTime, LiveIds;
  }

  lemma SweepKeepsLives(b: Boxes, pruned: set<Due>, reclaimed: set<Due>, id: BoxId)
    requires id in b.rows && id in Swept(b, pruned, reclaimed).rows
    ensures SameLife(b.rows[id], Swept(b, pruned, reclaimed).rows[id])
  {
    SweptRow(b, pruned, reclaimed, id);
  }
}
