/**
 Runs of the link boxes: what every arm and every sweep keeps, why the sweep cannot be seen, and
 what adds up over one life of a box.
 */
module LinkBoxRuns {
  import opened Common
  import opened Records
  import opened LinkBoxes

  // ---- what every arm keeps ----

  /** Nothing but the box at `id` differs. */
  ghost predicate SameElsewhere(b: Boxes, b': Boxes, id: BoxId) {
    forall o :: o != id ==>
      && (o in b'.rows <==> o in b.rows) && (o in b.rows ==> b'.rows[o] == b.rows[o])
      && (o in b'.deposits <==> o in b.deposits) && (o in b.deposits ==> b'.deposits[o] == b.deposits[o])
  }

  lemma OneBoxKeepsInv(b: Boxes, b': Boxes, id: BoxId)
    requires BoxesInv(b) && SameElsewhere(b, b', id)
    requires id in b'.deposits ==> id in b'.rows && b'.deposits[id] != []
    requires id in b'.rows ==> BoxSound(b', id)
    ensures BoxesInv(b')
  {
    hide BoxSound;
    forall o | o in b'.rows ensures BoxSound(b', o) {
      if o != id { BoxSoundFrame(b, b', o); }
    }
  }

  lemma BoxSoundFrame(b: Boxes, b': Boxes, id: BoxId)
    requires id in b.rows && id in b'.rows && b'.rows[id] == b.rows[id] && Standing(b', id) == Standing(b, id)
    requires BoxSound(b, id)
    ensures BoxSound(b', id)
  {
  }

  lemma RegisterKeepsInv(b: Boxes, id: BoxId, registration: Registration, ttl: int, liveCap: nat, now: Time)
    requires BoxesInv(b)
    ensures BoxesInv(RegisterStep(b, id, registration, ttl, liveCap, now).0)
  {
    hide BoxesInv, LinkBoxTime, LiveIds;
    var b' := RegisterStep(b, id, registration, ttl, liveCap, now).0;
    if b' != b {
      NoRowNoDeposit(b, id);
      OneBoxKeepsInv(b, b', id);
    }
  }

  lemma NoRowNoDeposit(b: Boxes, id: BoxId)
    requires BoxesInv(b) && id !in b.rows
    ensures id !in b.deposits
  {
  }

  lemma SoundAt(b: Boxes, id: BoxId)
    requires BoxesInv(b) && id in b.rows
    ensures BoxSound(b, id)
    ensures id in b.deposits ==> b.deposits[id] != []
  {
  }

  lemma AppendKeepsOrder(standing: seq<DepositRow>, id: BoxId, row: BoxRow, d: DepositRow)
    requires DepositsOrdered(standing, id, row)
    requires d.box == id && d.depositId == row.nextDepositId && 1 <= d.depositId && d.pruneAfter == row.expireTime
    requires forall i :: 0 <= i < |standing| ==> standing[i].hash != d.hash
    ensures DepositsOrdered(standing + [d], id, row.(nextDepositId := row.nextDepositId + 1, depositCount := row.depositCount + 1))
  {
  }

  lemma TakeDepositKeepsInv(b: Boxes, id: BoxId, ct: Bytes, hash: Bytes, t: Time)
    requires BoxesInv(b) && id in b.rows && Live(b.rows[id], t)
    ensures BoxesInv(TakeDeposit(b, id, ct, hash, t).0)
  {
    hide BoxesInv, DepositsOrdered, FindHash;
    var b', row, standing := TakeDeposit(b, id, ct, hash, t).0, b.rows[id], Standing(b, id);
    SoundAt(b, id);
    if FindHash(standing, hash, 0) == |standing| {
      if row.nextDepositId >= LINK_BOX_DEPOSITS + 1 {
        OrderIgnoresCounts(standing, id, row, b'.rows[id]);
      } else {
        AppendKeepsOrder(standing, id, row, DepositRow(id, row.nextDepositId, hash, ct, t, row.expireTime));
      }
      OneBoxKeepsInv(b, b', id);
    }
  }

  lemma {:induction false} AfterMembers(standing: seq<DepositRow>, through: nat)
    ensures forall d :: d in After(standing, through) <==> d in standing && through < d.depositId
  {
    if |standing| != 0 {
      AfterMembers(standing[..|standing| - 1], through);
    }
  }

  lemma {:induction false} AfterKeepsOrder(standing: seq<DepositRow>, id: BoxId, row: BoxRow, through: nat)
    requires DepositsOrdered(standing, id, row)
    ensures DepositsOrdered(After(standing, through), id, row)
  {
    if |standing| != 0 {
      var n := |standing| - 1;
      AfterKeepsOrder(standing[..n], id, row, through);
      var rest := After(standing[..n], through);
      forall i | 0 <= i < |rest| ensures rest[i].depositId < standing[n].depositId && rest[i].hash != standing[n].hash {
        AfterMembers(standing[..n], through);
        assert rest[i] in standing[..n];
      }
    }
  }

  lemma OrderIgnoresCounts(standing: seq<DepositRow>, id: BoxId, row: BoxRow, row': BoxRow)
    requires DepositsOrdered(standing, id, row)
    requires row'.nextDepositId == row.nextDepositId && row'.expireTime == row.expireTime
    ensures DepositsOrdered(standing, id, row')
  {
  }

  lemma CollectKeepsInv(b: Boxes, id: BoxId, verifiedPub: Bytes, since: nat, ackThrough: nat, limit: nat, now: Time)
    requires BoxesInv(b)
    ensures BoxesInv(CollectStep(b, id, verifiedPub, since, ackThrough, limit, now).0)
  {
    hide BoxesInv, DepositsOrdered, After, LinkBoxTime;
    var b' := CollectStep(b, id, verifiedPub, since, ackThrough, limit, now).0;
    if b' != b {
      SoundAt(b, id);
      AfterKeepsOrder(Standing(b, id), id, b.rows[id], ackThrough);
      OrderIgnoresCounts(After(Standing(b, id), ackThrough), id, b.rows[id], b'.rows[id]);
      OneBoxKeepsInv(b, b', id);
    }
  }

  lemma RetireKeepsInv(b: Boxes, id: BoxId, verifiedPub: Bytes, now: Time)
    requires BoxesInv(b)
    ensures BoxesInv(RetireStep(b, id, verifiedPub, now).0)
  {
    hide BoxesInv, LinkBoxTime;
    var b' := RetireStep(b, id, verifiedPub, now).0;
    if b' != b {
      SoundAt(b, id);
      OneBoxKeepsInv(b, b', id);
    }
  }

  /** Every arm keeps the invariant: two deposits over a life, counts that agree, ids in order. */
  lemma StepKeepsInv(b: Boxes, op: Op, now: Time)
    requires BoxesInv(b)
    ensures BoxesInv(Step(b, op, now).0)
  {
    hide BoxesInv, TakeDeposit, CollectStep, RetireStep, RegisterStep, LinkBoxTime;
    match op
    case Register(id, registration, ttl, liveCap) => RegisterKeepsInv(b, id, registration, ttl, liveCap, now);
    case Deposit(id, verifiedPub, ct, hash) =>
      if id in b.rows && Live(b.rows[id], LinkBoxTime(now)) {
        TakeDepositKeepsInv(b, id, ct, hash, LinkBoxTime(now));
      }
    case Collect(id, verifiedPub, since, ackThrough, limit) =>
      CollectKeepsInv(b, id, verifiedPub, since, ackThrough, limit, now);
    case Retire(id, verifiedPub) => RetireKeepsInv(b, id, verifiedPub, now);
    case _ =>
  }

  // ---- what every sweep keeps ----

  lemma {:induction false} KeepKeepsOrder(standing: seq<DepositRow>, id: BoxId, row: BoxRow, gone: set<Due>)
    requires DepositsOrdered(standing, id, row)
    ensures DepositsOrdered(Keep(standing, gone), id, row)
  {
    if |standing| != 0 {
      var n := |standing| - 1;
      KeepKeepsOrder(standing[..n], id, row, gone);
      var rest := Keep(standing[..n], gone);
      forall i | 0 <= i < |rest| ensures rest[i].depositId < standing[n].depositId && rest[i].hash != standing[n].hash {
        assert rest[i] in standing[..n];
      }
    }
  }

  lemma {:induction false} UntouchedIsKept(standing: seq<DepositRow>, gone: set<Due>)
    requires forall d :: d in standing ==> DueOf(d) !in gone
    ensures Keep(standing, gone) == standing
  {
    if |standing| != 0 {
      UntouchedIsKept(standing[..|standing| - 1], gone);
    }
  }

  /** A box no chosen deposit belongs to keeps everything it holds. */
  lemma UntouchedBoxIsKept(b: Boxes, id: BoxId, gone: set<Due>)
    requires id in b.rows && BoxSound(b, id) && !Touched(gone, id)
    ensures Keep(Standing(b, id), gone) == Standing(b, id)
  {
    forall d | d in Standing(b, id) ensures DueOf(d) !in gone {
      assert d.box == id;
    }
    UntouchedIsKept(Standing(b, id), gone);
  }

  lemma PrunedStanding(b: Boxes, gone: set<Due>, id: BoxId)
    ensures Standing(PruneDeposits(b, gone), id) == Keep(Standing(b, id), gone)
  {
  }

  lemma PruneKeepsBox(b: Boxes, gone: set<Due>, id: BoxId)
    requires id in b.rows && BoxSound(b, id)
    ensures BoxSound(PruneDeposits(b, gone), id)
  {
    var b', standing := PruneDeposits(b, gone), Standing(b, id);
    hide DepositsOrdered, Keep, Touched;
    PrunedStanding(b, gone, id);
    KeepKeepsOrder(standing, id, b.rows[id], gone);
    OrderIgnoresCounts(Keep(standing, gone), id, b.rows[id], b'.rows[id]);
    if !Touched(gone, id) { UntouchedBoxIsKept(b, id, gone); }
    if standing == [] { assert |Keep(standing, gone)| == 0; }
  }

  lemma SweepKeepsInv(b: Boxes, pruned: set<Due>, reclaimed: set<Due>)
    requires BoxesInv(b)
    ensures BoxesInv(Swept(b, pruned, reclaimed))
  {
    hide BoxSound, Keep, Touched;
    var mid, b' := PruneDeposits(b, pruned), Swept(b, pruned, reclaimed);
    forall id | id in b'.rows ensures BoxSound(b', id) {
      PruneKeepsBox(b, pruned, id);
      BoxSoundFrame(mid, b', id);
    }
  }

  // ---- the sweep cannot be seen ----

  /** Two rows a caller cannot tell apart: they differ at most in the count of an expired box. */
  ghost predicate SameBox(a: BoxRow, b: BoxRow, t: Time) {
    && a == b.(depositCount := a.depositCount)
    && (t < a.expireTime ==> a == b)
  }

  /**
   `b` is `a` with some expired rows swept away: what is missing had expired by `t`, and what is
   there agrees, to the last deposit while the box lives.
   */
  ghost predicate SweptFrom(a: Boxes, b: Boxes, t: Time) {
    && b.rows.Keys <= a.rows.Keys
    && (forall id :: id in a.rows && id !in b.rows ==> a.rows[id].expireTime <= t)
    && (forall id :: id in b.rows ==> SameBox(a.rows[id], b.rows[id], t))
    && (forall id :: id in b.rows && t < b.rows[id].expireTime ==> Standing(a, id) == Standing(b, id))
  }

  lemma SweptFromItself(b: Boxes, t: Time)
    ensures SweptFrom(b, b, t)
  {
  }

  lemma SweptFromLater(a: Boxes, b: Boxes, t: Time, t': Time)
    requires SweptFrom(a, b, t) && t <= t'
    ensures SweptFrom(a, b, t')
  {
  }

  /** The live boxes are the same boxes. */
  lemma SameLiveIds(a: Boxes, b: Boxes, t: Time)
    requires SweptFrom(a, b, t)
    ensures LiveIds(a, t) == LiveIds(b, t)
  {
    forall id ensures id in LiveIds(a, t) <==> id in LiveIds(b, t) {
      if id in b.rows { assert SameBox(a.rows[id], b.rows[id], t); }
    }
  }

  /** A live box is the same row with the same deposits in both. */
  lemma SameLiveBox(a: Boxes, b: Boxes, t: Time, id: BoxId)
    requires SweptFrom(a, b, t)
    ensures id in b.rows ==> id in a.rows
    ensures id in a.rows && Live(a.rows[id], t) <==> id in b.rows && Live(b.rows[id], t)
    ensures id in b.rows && Live(b.rows[id], t) ==> a.rows[id] == b.rows[id] && Standing(a, id) == Standing(b, id)
  {
    if id in b.rows { assert SameBox(a.rows[id], b.rows[id], t); }
  }

  /** Changing one live box alike on both sides keeps the relation. */
  lemma ChangeAlike(a: Boxes, b: Boxes, a': Boxes, b': Boxes, id: BoxId, t: Time)
    requires SweptFrom(a, b, t) && SameElsewhere(a, a', id) && SameElsewhere(b, b', id)
    requires id in a'.rows && id in b'.rows && a'.rows[id] == b'.rows[id] && Standing(a', id) == Standing(b', id)
    ensures SweptFrom(a', b', t)
  {
    forall o | o in b'.rows ensures SameBox(a'.rows[o], b'.rows[o], t) {
      if o != id { assert SameBox(a.rows[o], b.rows[o], t); }
    }
    forall o | o in b'.rows && t < b'.rows[o].expireTime ensures Standing(a', o) == Standing(b', o) {
      if o != id { assert Standing(a, o) == Standing(b, o); }
    }
  }

  /** The one arm the sweep's timing reaches: a Register at an id the sweep has reclaimed. */
  ghost predicate AtReclaimed(a: Boxes, b: Boxes, op: Op) {
    op.Register? && ShapeError(op).None? && op.id in a.rows && op.id !in b.rows
  }

  lemma RegisterUnseen(a: Boxes, b: Boxes, id: BoxId, registration: Registration, ttl: int, liveCap: nat, now: Time)
    requires BoxesInv(a) && BoxesInv(b)
    requires SweptFrom(a, b, LinkBoxTime(now)) && (id in a.rows <==> id in b.rows)
    ensures var (a', x) := RegisterStep(a, id, registration, ttl, liveCap, now);
            var (b', y) := RegisterStep(b, id, registration, ttl, liveCap, now);
            x == y && SweptFrom(a', b', LinkBoxTime(now))
  {
    hide LiveIds, LinkBoxTime, BoxesInv, SweptFrom;
    var t := LinkBoxTime(now);
    SameLiveIds(a, b, t);
    SameLiveBox(a, b, t, id);
    if id !in a.rows && |LiveIds(a, t)| < liveCap {
      NoRowNoDeposit(a, id);
      NoRowNoDeposit(b, id);
      NewBoxAlike(a, b, id, NewRow(registration, t, LinkBoxTime(t + ttl)), t);
    }
  }

  lemma NewBoxAlike(a: Boxes, b: Boxes, id: BoxId, row: BoxRow, t: Time)
    requires SweptFrom(a, b, t) && id !in a.rows && id !in b.rows && id !in a.deposits && id !in b.deposits
    ensures SweptFrom(a.(rows := a.rows[id := row]), b.(rows := b.rows[id := row]), t)
  {
  }

  /** Taking a deposit depends on the box alone, and changes that box alone. */
  lemma TakeDepositAlike(a: Boxes, b: Boxes, id: BoxId, ct: Bytes, hash: Bytes, t: Time)
    requires id in a.rows && id in b.rows && a.rows[id] == b.rows[id] && Standing(a, id) == Standing(b, id)
    ensures var (a', x) := TakeDeposit(a, id, ct, hash, t);
            var (b', y) := TakeDeposit(b, id, ct, hash, t);
            && x == y && SameElsewhere(b, b', id)
            && id in a'.rows && id in b'.rows && a'.rows[id] == b'.rows[id] && Standing(a', id) == Standing(b', id)
  {
    hide FindHash;
  }

  lemma DepositUnseen(a: Boxes, b: Boxes, id: BoxId, verifiedPub: Bytes, ct: Bytes, hash: Bytes, now: Time)
    requires SweptFrom(a, b, LinkBoxTime(now))
    ensures var (a', x) := DepositStep(a, id, verifiedPub, ct, hash, now);
            var (b', y) := DepositStep(b, id, verifiedPub, ct, hash, now);
            x == y && SweptFrom(a', b', LinkBoxTime(now))
  {
    hide SweptFrom, LinkBoxTime, TakeDeposit, SameElsewhere;
    var t := LinkBoxTime(now);
    SameLiveBox(a, b, t, id);
    if id in b.rows && Live(b.rows[id], t) && b.rows[id].depositPub == verifiedPub {
      TakeDepositAlike(a, b, id, ct, hash, t);
      TakeDepositAlike(b, a, id, ct, hash, t);
      ChangeAlike(a, b, TakeDeposit(a, id, ct, hash, t).0, TakeDeposit(b, id, ct, hash, t).0, id, t);
    }
  }

  lemma CollectUnseen(a: Boxes, b: Boxes, id: BoxId, verifiedPub: Bytes, since: nat, ackThrough: nat, limit: nat, now: Time)
    requires SweptFrom(a, b, LinkBoxTime(now))
    ensures var (a', x) := CollectStep(a, id, verifiedPub, since, ackThrough, limit, now);
            var (b', y) := CollectStep(b, id, verifiedPub, since, ackThrough, limit, now);
            x == y && SweptFrom(a', b', LinkBoxTime(now))
  {
    hide SweptFrom, LinkBoxTime, After;
    var t := LinkBoxTime(now);
    SameLiveBox(a, b, t, id);
    if id in b.rows && Live(b.rows[id], t) && b.rows[id].collectPub == verifiedPub {
      ChangeAlike(a, b, CollectStep(a, id, verifiedPub, since, ackThrough, limit, now).0,
                  CollectStep(b, id, verifiedPub, since, ackThrough, limit, now).0, id, t);
    }
  }

  lemma RetireUnseen(a: Boxes, b: Boxes, id: BoxId, verifiedPub: Bytes, now: Time)
    requires SweptFrom(a, b, LinkBoxTime(now))
    ensures var (a', x) := RetireStep(a, id, verifiedPub, now);
            var (b', y) := RetireStep(b, id, verifiedPub, now);
            x == y && SweptFrom(a', b', LinkBoxTime(now))
  {
    hide SweptFrom, LinkBoxTime;
    var t := LinkBoxTime(now);
    SameLiveBox(a, b, t, id);
    if id in b.rows && Live(b.rows[id], t) && b.rows[id].collectPub == verifiedPub {
      ChangeAlike(a, b, RetireStep(a, id, verifiedPub, now).0, RetireStep(b, id, verifiedPub, now).0, id, t);
    }
  }

  /** Every arm but a Register at a reclaimed id answers alike and keeps the two stores alike. */
  lemma StepUnseen(a: Boxes, b: Boxes, op: Op, now: Time)
    requires BoxesInv(a) && BoxesInv(b) && SweptFrom(a, b, LinkBoxTime(now)) && !AtReclaimed(a, b, op)
    ensures Step(a, op, now).1 == Step(b, op, now).1
    ensures SweptFrom(Step(a, op, now).0, Step(b, op, now).0, LinkBoxTime(now))
  {
    hide RegisterStep, DepositStep, CollectStep, RetireStep, LinkBoxTime, LiveIds, BoxesInv, SweptFrom;
    match op
    case Register(id, registration, ttl, liveCap) =>
      SameLiveBox(a, b, LinkBoxTime(now), id);
      if ShapeError(op).None? { RegisterUnseen(a, b, id, registration, ttl, liveCap, now); }
    case Open(id) => SameLiveBox(a, b, LinkBoxTime(now), id);
    case Deposit(id, verifiedPub, ct, hash) => DepositUnseen(a, b, id, verifiedPub, ct, hash, now);
    case Collect(id, verifiedPub, since, ackThrough, limit) =>
      CollectUnseen(a, b, id, verifiedPub, since, ackThrough, limit, now);
    case Retire(id, verifiedPub) => RetireUnseen(a, b, id, verifiedPub, now);
    case CountLive => SameLiveIds(a, b, LinkBoxTime(now));
  }

  /** At a reclaimed id the two answers always differ: the unswept row refuses, the swept id does not. */
  lemma RegisterSeesReclaim(a: Boxes, b: Boxes, op: Op, now: Time)
    requires SweptFrom(a, b, LinkBoxTime(now)) && AtReclaimed(a, b, op)
    ensures Step(a, op, now).1 == Registered(ReasonRejected, 0, 0)
    ensures Step(b, op, now).1 != Step(a, op, now).1
  {
  }

  /** A sweep takes nothing from a box that is still within its life. */
  lemma SweepSparesTheLiving(b: Boxes, now: Time, bounds: Bounds, pruned: set<Due>, reclaimed: set<Due>, id: BoxId)
    requires BoxesInv(b) && SweepChooses(b, now, bounds, pruned, reclaimed)
    requires id in b.rows && LinkBoxTime(now) < b.rows[id].expireTime
    ensures var b' := Swept(b, pruned, reclaimed);
            id in b'.rows && b'.rows[id] == b.rows[id] && Standing(b', id) == Standing(b, id)
  {
    var t := LinkBoxTime(now);
    assert BoxSound(b, id);
    assert !Touched(pruned, id) by {
      forall d | d in pruned ensures d.box != id { DueDepositHasExpired(b, t, d); }
    }
    assert id !in Ids(reclaimed) by {
      forall d | d in reclaimed ensures d.box != id { assert d in DueBoxes(b, t); }
    }
    hide BoxesInv, SweepChooses, LinkBoxTime;
    UntouchedBoxIsKept(b, id, pruned);
    PrunedStanding(b, pruned, id);
  }

  lemma DueDepositHasExpired(b: Boxes, t: Time, d: Due)
    requires BoxesInv(b) && d in DueDeposits(b, t)
    ensures d.box in b.rows && b.rows[d.box].expireTime <= t
  {
    var id, i :| id in b.deposits && 0 <= i < |b.deposits[id]| && b.deposits[id][i].pruneAfter <= t && d == DueOf(b.deposits[id][i]);
    assert BoxSound(b, id) && Standing(b, id)[i] == b.deposits[id][i];
  }

  /** What a sweep removes or recounts had expired. */
  lemma SweepUnseen(a: Boxes, b: Boxes, now: Time, bounds: Bounds, pruned: set<Due>, reclaimed: set<Due>)
    requires BoxesInv(b) && SweptFrom(a, b, LinkBoxTime(now)) && SweepChooses(b, now, bounds, pruned, reclaimed)
    ensures SweptFrom(a, Swept(b, pruned, reclaimed), LinkBoxTime(now))
  {
    var t, b' := LinkBoxTime(now), Swept(b, pruned, reclaimed);
    hide LinkBoxTime, Swept, SweepChooses, BoxesInv;
    forall id
      ensures id in b'.rows ==> id in b.rows && SameBox(a.rows[id], b'.rows[id], t)
      ensures id in b.rows && id !in b'.rows ==> a.rows[id].expireTime <= t
      ensures id in b'.rows && t < b'.rows[id].expireTime ==> Standing(a, id) == Standing(b', id)
    {
      if id in b.rows {
        assert SameBox(a.rows[id], b.rows[id], t);
        SweptRow(b, pruned, reclaimed, id);
        if t < b.rows[id].expireTime { SweepSparesTheLiving(b, now, bounds, pruned, reclaimed, id); }
      } else {
        SweptRow(b, pruned, reclaimed, id);
      }
    }
  }

  lemma SweptRow(b: Boxes, pruned: set<Due>, reclaimed: set<Due>, id: BoxId)
    ensures var b' := Swept(b, pruned, reclaimed);
            id in b'.rows ==> id in b.rows && b'.rows[id] == b.rows[id].(depositCount := b'.rows[id].depositCount)
  {
    hide Keep, Touched;
  }

  // ---- whole runs ----

  datatype Event =
    | Arm(op: Op, now: Time)
    | SweepBatch(now: Time, bounds: Bounds, pruned: set<Due>, reclaimed: set<Due>)

  /** The store one event leaves. */
  ghost function Next(b: Boxes, e: Event): Boxes {
    match e
    case Arm(op, now) => Step(b, op, now).0
    case SweepBatch(_, _, pruned, reclaimed) => Swept(b, pruned, reclaimed)
  }

  /** The clock never goes back, from `since` on. */
  ghost predicate Timed(since: Time, events: seq<Event>)
    decreases |events|
  {
    |events| == 0 || (since <= events[0].now && Timed(events[0].now, events[1..]))
  }

  /** Every sweep of the run chose what a sweep chooses, in the store it met. */
  ghost predicate Legal(b: Boxes, events: seq<Event>)
    decreases |events|
  {
    |events| == 0 ||
    match events[0]
    case Arm(op, now) => Legal(Step(b, op, now).0, events[1..])
    case SweepBatch(now, bounds, pruned, reclaimed) =>
      SweepChooses(b, now, bounds, pruned, reclaimed) && Legal(Swept(b, pruned, reclaimed), events[1..])
  }

  /**
   The run of `a`, in which no sweep ever happens, and the run of `b`, in which every sweep does,
   answer alike at every arm up to the first Register at an id `b` has reclaimed, where they differ.
   */
  ghost predicate Indistinguishable(a: Boxes, b: Boxes, events: seq<Event>)
    decreases |events|
  {
    |events| == 0 ||
    match events[0]
    case SweepBatch(_, _, pruned, reclaimed) => Indistinguishable(a, Swept(b, pruned, reclaimed), events[1..])
    case Arm(op, now) =>
      if AtReclaimed(a, b, op) then Step(a, op, now).1 != Step(b, op, now).1
      else Step(a, op, now).1 == Step(b, op, now).1
           && Indistinguishable(Step(a, op, now).0, Step(b, op, now).0, events[1..])
  }

  lemma {:induction false} SweepIsUnobservable(a: Boxes, b: Boxes, since: Time, events: seq<Event>)
    requires BoxesInv(a) && BoxesInv(b) && SweptFrom(a, b, LinkBoxTime(since))
    requires Timed(since, events) && Legal(b, events)
    ensures Indistinguishable(a, b, events)
    decreases |events|
  {
    hide BoxesInv, SweptFrom, Step, SweepChooses, Swept, AtReclaimed, LinkBoxTime;
    if |events| != 0 {
      var now := events[0].now;
      LinkBoxTimeMonotone(since, now);
      SweptFromLater(a, b, LinkBoxTime(since), LinkBoxTime(now));
      match events[0]
      case SweepBatch(_, bounds, pruned, reclaimed) =>
        SweepKeepsInv(b, pruned, reclaimed);
        SweepUnseen(a, b, now, bounds, pruned, reclaimed);
        SweepIsUnobservable(a, Swept(b, pruned, reclaimed), now, events[1..]);
      case Arm(op, _) =>
        if AtReclaimed(a, b, op) {
          RegisterSeesReclaim(a, b, op, now);
        } else {
          StepUnseen(a, b, op, now);
          StepKeepsInv(a, op, now);
          StepKeepsInv(b, op, now);
          SweepIsUnobservable(Step(a, op, now).0, Step(b, op, now).0, now, events[1..]);
        }
    }
  }

  /** From any sound store, inserting sweeps anywhere in a run changes no answer but such a Register's. */
  lemma SweepingChangesNoAnswer(b: Boxes, since: Time, events: seq<Event>)
    requires BoxesInv(b) && Timed(since, events) && Legal(b, events)
    ensures Indistinguishable(b, b, events)
  {
    SweptFromItself(b, LinkBoxTime(since));
    SweepIsUnobservable(b, b, since, events);
  }
}
