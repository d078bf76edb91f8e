/**
 A run with sweeps beside the same run without, followed past the point where they first answer
 differently: the difference stays at the ids whose Register answered differently.
 */
module LinkBoxDivergence {
  import opened Common
  import opened Records
  import opened LinkBoxes
  import opened LinkBoxRuns
  import opened LinkBoxLedger

  /** At this id the two stores agree, but for an expired row the sweep has reclaimed or recounted. */
  ghost predicate SweptAt(a: Boxes, b: Boxes, t: Time, id: BoxId) {
    && (id in b.rows ==> id in a.rows && SameBox(a.rows[id], b.rows[id], t))
    && (id in b.rows && t < b.rows[id].expireTime ==> Standing(a, id) == Standing(b, id))
    && (id in a.rows && id !in b.rows ==> a.rows[id].expireTime <= t)
  }

  ghost predicate SweptOutside(a: Boxes, b: Boxes, t: Time, parted: set<BoxId>) {
    forall id :: id !in parted ==> SweptAt(a, b, t, id)
  }

  lemma NothingPartedIsSwept(a: Boxes, b: Boxes, t: Time)
    ensures SweptOutside(a, b, t, {}) <==> SweptFrom(a, b, t)
  {
    if SweptOutside(a, b, t, {}) {
      forall id ensures SweptAt(a, b, t, id) {}
      forall id | id in b.rows ensures id in a.rows { assert SweptAt(a, b, t, id); }
      forall id | id in a.rows && id !in b.rows ensures a.rows[id].expireTime <= t { assert SweptAt(a, b, t, id); }
      forall id | id in b.rows ensures SameBox(a.rows[id], b.rows[id], t) { assert SweptAt(a, b, t, id); }
      forall id | id in b.rows && t < b.rows[id].expireTime ensures Standing(a, id) == Standing(b, id) { assert SweptAt(a, b, t, id); }
    }
  }

  lemma LaterStillSwept(a: Boxes, b: Boxes, t: Time, t': Time, parted: set<BoxId>)
    requires SweptOutside(a, b, t, parted) && t <= t'
    ensures SweptOutside(a, b, t', parted)
  {
    forall id | id !in parted ensures SweptAt(a, b, t', id) { assert SweptAt(a, b, t, id); }
  }

  // ---- one arm at an id the stores agree at ----

  lemma SameLiveAt(a: Boxes, b: Boxes, t: Time, id: BoxId)
    requires SweptAt(a, b, t, id)
    ensures id in a.rows && Live(a.rows[id], t) <==> id in b.rows && Live(b.rows[id], t)
    ensures id in b.rows && Live(b.rows[id], t) ==> a.rows[id] == b.rows[id] && Standing(a, id) == Standing(b, id)
  {
  }

  /** The box being the same on both sides, so is what any arm but a Register makes of it. */
  lemma LiveArmAlike(a: Boxes, b: Boxes, op: Op, now: Time)
    requires op.Open? || op.Deposit? || op.Collect? || op.Retire?
    requires op.id in a.rows && op.id in b.rows && a.rows[op.id] == b.rows[op.id] && Standing(a, op.id) == Standing(b, op.id)
    ensures var (a', x) := Step(a, op, now);
            var (b', y) := Step(b, op, now);
            && x == y && op.id in a'.rows && op.id in b'.rows
            && a'.rows[op.id] == b'.rows[op.id] && Standing(a', op.id) == Standing(b', op.id)
  {
    hide FindHash, LinkBoxTime, LinkBoxes.After, TakeDeposit;
    if op.Deposit? { TakeDepositAlike(a, b, op.id, op.ct, op.hash, LinkBoxTime(now)); }
  }

  lemma DeadArmAlike(a: Boxes, b: Boxes, op: Op, now: Time)
    requires op.Open? || op.Deposit? || op.Collect? || op.Retire?
    requires !(op.id in a.rows && Live(a.rows[op.id], LinkBoxTime(now))) && !(op.id in b.rows && Live(b.rows[op.id], LinkBoxTime(now)))
    ensures Step(a, op, now) == (a, Step(b, op, now).1) && Step(b, op, now) == (b, Step(a, op, now).1)
  {
    hide LinkBoxTime;
  }

  lemma ArmAlikeAt(a: Boxes, b: Boxes, op: Op, now: Time)
    requires op.Open? || op.Deposit? || op.Collect? || op.Retire?
    requires SweptAt(a, b, LinkBoxTime(now), op.id)
    ensures Step(a, op, now).1 == Step(b, op, now).1
    ensures SweptAt(Step(a, op, now).0, Step(b, op, now).0, LinkBoxTime(now), op.id)
  {
    hide Step, LinkBoxTime;
    SameLiveAt(a, b, LinkBoxTime(now), op.id);
    if op.id in b.rows && Live(b.rows[op.id], LinkBoxTime(now)) {
      LiveArmAlike(a, b, op, now);
    } else {
      DeadArmAlike(a, b, op, now);
    }
  }

  /** A Register that answers alike leaves the id alike; it does not only where a row is reclaimed or the cap falls between. */
  lemma RegisterAt(a: Boxes, b: Boxes, op: Op, now: Time)
    requires BoxesInv(a) && BoxesInv(b) && op.Register? && SweptAt(a, b, LinkBoxTime(now), op.id)
    ensures Step(a, op, now).1 == Step(b, op, now).1 ==>
              SweptAt(Step(a, op, now).0, Step(b, op, now).0, LinkBoxTime(now), op.id)
    ensures Step(a, op, now).1 != Step(b, op, now).1 <==>
              || AtReclaimed(a, b, op)
              || (ShapeError(op).None? && op.id !in a.rows
                  && (op.liveCap <= |LiveIds(a, LinkBoxTime(now))| <==> |LiveIds(b, LinkBoxTime(now))| < op.liveCap))
  {
    hide LiveIds, LinkBoxTime, BoxesInv;
    if op.id !in a.rows { NoRowNoDeposit(a, op.id); }
    if op.id !in b.rows { NoRowNoDeposit(b, op.id); }
    SameLiveAt(a, b, LinkBoxTime(now), op.id);
  }

  lemma ElsewhereStillSwept(a: Boxes, b: Boxes, a': Boxes, b': Boxes, t: Time, id: BoxId, o: BoxId)
    requires SweptAt(a, b, t, o) && o != id && SameElsewhere(a, a', id) && SameElsewhere(b, b', id)
    ensures SweptAt(a', b', t, o)
  {
  }

  // ---- the sweep ----

  lemma SweepUnseenAt(a: Boxes, b: Boxes, now: Time, bounds: Bounds, pruned: set<Due>, reclaimed: set<Due>, id: BoxId)
    requires BoxesInv(b) && SweepChooses(b, now, bounds, pruned, reclaimed) && SweptAt(a, b, LinkBoxTime(now), id)
    ensures SweptAt(a, Swept(b, pruned, reclaimed), LinkBoxTime(now), id)
  {
    hide LinkBoxTime, Swept, SweepChooses, BoxesInv;
    SweptRow(b, pruned, reclaimed, id);
    if id in b.rows && LinkBoxTime(now) < b.rows[id].expireTime {
      SweepSparesTheLiving(b, now, bounds, pruned, reclaimed, id);
    }
  }

  // ---- whole runs ----

  /** The ids at which a Register has answered differently by now. */
  ghost function PartedAfter(a: Boxes, b: Boxes, parted: set<BoxId>, op: Op, now: Time): set<BoxId> {
    if op.Register? && Step(a, op, now).1 != Step(b, op, now).1 then parted + {op.id} else parted
  }

  /**
   At every arm of the run: an id where no Register has answered differently answers alike, a
   Register there apart, which may only where the sweep has reclaimed it or, once the runs have parted
   somewhere, where the cap on live boxes falls between them; and until then the live count is the same.
   */
  ghost predicate AlikeOutside(a: Boxes, b: Boxes, events: seq<Event>, parted: set<BoxId>)
    decreases |events|
  {
    |events| == 0 ||
    match events[0]
    case SweepBatch(_, _, pruned, reclaimed) => AlikeOutside(a, Swept(b, pruned, reclaimed), events[1..], parted)
    case Arm(op, now) =>
      var (a', x) := Step(a, op, now);
      var (b', y) := Step(b, op, now);
      && (op.CountLive? && parted == {} ==> x == y)
      && (!op.CountLive? && op.id !in parted && x != y ==> op.Register? && (AtReclaimed(a, b, op) || parted != {}))
      && AlikeOutside(a', b', events[1..], PartedAfter(a, b, parted, op, now))
  }

  lemma ArmOutside(a: Boxes, b: Boxes, op: Op, now: Time, parted: set<BoxId>)
    requires BoxesInv(a) && BoxesInv(b) && SweptOutside(a, b, LinkBoxTime(now), parted)
    ensures var (a', x) := Step(a, op, now);
            var (b', y) := Step(b, op, now);
            && SweptOutside(a', b', LinkBoxTime(now), PartedAfter(a, b, parted, op, now))
            && (op.CountLive? && parted == {} ==> x == y)
            && (!op.CountLive? && op.id !in parted && x != y ==> op.Register? && (AtReclaimed(a, b, op) || parted != {}))
  {
    hide BoxesInv, LinkBoxTime, SweptAt, Step, LiveIds, AtReclaimed;
    if op.CountLive? || parted == {} { CountsAlike(a, b, op, now, parted); }
    if !op.CountLive? {
      NamedOutside(a, b, op, now, parted);
    }
  }

  lemma CountsAlike(a: Boxes, b: Boxes, op: Op, now: Time, parted: set<BoxId>)
    requires SweptOutside(a, b, LinkBoxTime(now), parted)
    ensures op.CountLive? ==> Step(a, op, now).0 == a && Step(b, op, now).0 == b
    ensures parted == {} ==> LiveIds(a, LinkBoxTime(now)) == LiveIds(b, LinkBoxTime(now))
    ensures op.CountLive? && parted == {} ==> Step(a, op, now).1 == Step(b, op, now).1
  {
    hide LinkBoxTime, SweptOutside, LiveIds, SweptFrom;
    if parted == {} {
      NothingPartedIsSwept(a, b, LinkBoxTime(now));
      SameLiveIds(a, b, LinkBoxTime(now));
    }
  }

  lemma NamedOutside(a: Boxes, b: Boxes, op: Op, now: Time, parted: set<BoxId>)
    requires BoxesInv(a) && BoxesInv(b) && SweptOutside(a, b, LinkBoxTime(now), parted) && !op.CountLive?
    ensures SweptOutside(Step(a, op, now).0, Step(b, op, now).0, LinkBoxTime(now), PartedAfter(a, b, parted, op, now))
    ensures op.id !in parted && Step(a, op, now).1 != Step(b, op, now).1 ==> op.Register? && (AtReclaimed(a, b, op) || parted != {})
  {
    hide BoxesInv, LinkBoxTime, SweptAt, Step, LiveIds, AtReclaimed;
    var t := LinkBoxTime(now);
    StepElsewhere(a, op, now);
    StepElsewhere(b, op, now);
    if op.id !in parted {
      if op.Register? {
        RegisterAt(a, b, op, now);
        CountsAlike(a, b, op, now, parted);
      } else {
        ArmAlikeAt(a, b, op, now);
      }
    }
    forall o | o !in PartedAfter(a, b, parted, op, now) ensures SweptAt(Step(a, op, now).0, Step(b, op, now).0, t, o) {
      if o != op.id { ElsewhereStillSwept(a, b, Step(a, op, now).0, Step(b, op, now).0, t, op.id, o); }
    }
  }

  lemma {:induction false} SweepSeenOnlyAtRegisters(a: Boxes, b: Boxes, since: Time, events: seq<Event>, parted: set<BoxId>)
    requires BoxesInv(a) && BoxesInv(b) && SweptOutside(a, b, LinkBoxTime(since), parted)
    requires Timed(since, events) && Legal(b, events)
    ensures AlikeOutside(a, b, events, parted)
    decreases |events|
  {
    hide BoxesInv, SweptOutside, Step, SweepChooses, Swept, AtReclaimed, LinkBoxTime, PartedAfter;
    if |events| != 0 {
      var now := events[0].now;
      LinkBoxTimeMonotone(since, now);
      LaterStillSwept(a, b, LinkBoxTime(since), LinkBoxTime(now), parted);
      match events[0]
      case SweepBatch(_, bounds, pruned, reclaimed) =>
        SweepKeepsInv(b, pruned, reclaimed);
        SweepUnseenOutside(a, b, now, bounds, pruned, reclaimed, parted);
        SweepSeenOnlyAtRegisters(a, Swept(b, pruned, reclaimed), now, events[1..], parted);
      case Arm(op, _) =>
        ArmOutside(a, b, op, now, parted);
        StepKeepsInv(a, op, now);
        StepKeepsInv(b, op, now);
        SweepSeenOnlyAtRegisters(Step(a, op, now).0, Step(b, op, now).0, now, events[1..], PartedAfter(a, b, parted, op, now));
    }
  }

  lemma SweepUnseenOutside(a: Boxes, b: Boxes, now: Time, bounds: Bounds, pruned: set<Due>, reclaimed: set<Due>, parted: set<BoxId>)
    requires BoxesInv(b) && SweepChooses(b, now, bounds, pruned, reclaimed) && SweptOutside(a, b, LinkBoxTime(now), parted)
    ensures SweptOutside(a, Swept(b, pruned, reclaimed), LinkBoxTime(now), parted)
  {
    hide LinkBoxTime, Swept, SweepChooses, BoxesInv, SweptAt;
    forall id | id !in parted ensures SweptAt(a, Swept(b, pruned, reclaimed), LinkBoxTime(now), id) {
      SweepUnseenAt(a, b, now, bounds, pruned, reclaimed, id);
    }
  }

  /** From any sound store, over any whole run, however many Registers have come to differ. */
  lemma SweepingPartsOnlyRegisters(b: Boxes, since: Time, events: seq<Event>)
    requires BoxesInv(b) && Timed(since, events) && Legal(b, events)
    ensures AlikeOutside(b, b, events, {})
  {
    SweptFromItself(b, LinkBoxTime(since));
    NothingPartedIsSwept(b, b, LinkBoxTime(since));
    SweepSeenOnlyAtRegisters(b, b, since, events, {});
  }
}
