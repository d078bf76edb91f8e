/** The job that sweeps in batches until one reaches neither bound, a limit on batches or its budget is spent. */
module SweepJob {
  import opened Common
  import opened LinkBoxes
  import opened LinkBoxRuns
  import opened LinkBoxStore

  const DEFAULT_MAX_BATCHES: nat := 50
  const DEFAULT_BUDGET: int := 20_000_000_000

  datatype Totals = Totals(batches: nat, deposits: nat, boxes: nat)

  /** Why a pass ended; a drained one carries the instant of the batch that reached neither bound. */
  datatype Stop = Drained(at: Time) | OutOfBatches | OutOfBudget | Cancelled

  /** Nothing due at `t` is left. */
  ghost predicate NothingDue(b: Boxes, t: Time) {
    && (forall id :: id in b.rows ==> t < b.rows[id].reclaimAfter)
    && (forall id, i :: id in b.deposits && 0 <= i < |b.deposits[id]| ==> t < b.deposits[id][i].pruneAfter)
  }

  /** A choice that stops short of its bound left nothing out. */
  lemma ShortChoiceIsAll(chosen: set<Due>, all: set<Due>, bound: nat)
    requires Oldest(chosen, all, bound) && |chosen| < bound
    ensures chosen == all
  {
    SubsetCard(chosen, all);
  }

  /** With every due deposit and every due box gone, nothing due is left. */
  lemma AllGoneNothingDue(b: Boxes, t: Time)
    requires BoxesInv(b)
    ensures NothingDue(Swept(b, DueDeposits(b, t), DueBoxes(b, t)), t)
  {
    hide BoxesInv;
    var b' := Swept(b, DueDeposits(b, t), DueBoxes(b, t));
    forall id | id in b'.rows ensures t < b'.rows[id].reclaimAfter {
      SweptRow(b, DueDeposits(b, t), DueBoxes(b, t), id);
      assert DueBox(id, b.rows[id]) !in DueBoxes(b, t);
    }
    forall id, i | id in b'.deposits && 0 <= i < |b'.deposits[id]| ensures t < b'.deposits[id][i].pruneAfter {
      var d := b'.deposits[id][i];
      assert d in Keep(b.deposits[id], DueDeposits(b, t));
      var k :| 0 <= k < |b.deposits[id]| && b.deposits[id][k] == d;
      assert DueOf(b.deposits[id][k]) !in DueDeposits(b, t);
    }
  }

  /** A batch that reaches neither bound leaves nothing due at its own instant. */
  lemma ShortBatchDrains(b: Boxes, now: Time, bounds: Bounds, pruned: set<Due>, reclaimed: set<Due>)
    requires BoxesInv(b) && SweepChooses(b, now, bounds, pruned, reclaimed)
    requires |pruned| < OrDefault(bounds).deposits && |reclaimed| < OrDefault(bounds).boxes
    ensures NothingDue(Swept(b, pruned, reclaimed), LinkBoxTime(now))
  {
    hide BoxesInv, Swept, DueDeposits, DueBoxes, NothingDue, LinkBoxTime;
    var t := LinkBoxTime(now);
    ShortChoiceIsAll(pruned, DueDeposits(b, t), OrDefault(bounds).deposits);
    ShortChoiceIsAll(reclaimed, DueBoxes(b, t), OrDefault(bounds).boxes);
    AllGoneNothingDue(b, t);
  }

  /** No due row a batch leaves for a later one fell due before one it took. */
  lemma OldestGoFirst(b: Boxes, now: Time, bounds: Bounds, pruned: set<Due>, reclaimed: set<Due>)
    requires SweepChooses(b, now, bounds, pruned, reclaimed)
    ensures forall c, id, i ::
              && c in pruned && id in b.deposits && 0 <= i < |b.deposits[id]|
              && b.deposits[id][i].pruneAfter <= LinkBoxTime(now) && DueOf(b.deposits[id][i]) !in pruned ==>
                c.when <= b.deposits[id][i].pruneAfter
    ensures forall c, id ::
              && c in reclaimed && id in b.rows && b.rows[id].reclaimAfter <= LinkBoxTime(now) && DueBox(id, b.rows[id]) !in reclaimed ==>
                c.when <= b.rows[id].reclaimAfter
  {
    hide LinkBoxTime;
    var t := LinkBoxTime(now);
    forall c, id, i | c in pruned && id in b.deposits && 0 <= i < |b.deposits[id]| && b.deposits[id][i].pruneAfter <= t
                      && DueOf(b.deposits[id][i]) !in pruned
      ensures c.when <= b.deposits[id][i].pruneAfter
    {
      assert DueOf(b.deposits[id][i]) in DueDeposits(b, t) && Before(c, DueOf(b.deposits[id][i]));
    }
    forall c, id | c in reclaimed && id in b.rows && b.rows[id].reclaimAfter <= t && DueBox(id, b.rows[id]) !in reclaimed
      ensures c.when <= b.rows[id].reclaimAfter
    {
      assert DueBox(id, b.rows[id]) in DueBoxes(b, t) && Before(c, DueBox(id, b.rows[id]));
    }
  }

  /** What a batch leaves of what was due: an equal instant at a greater id, or at the same box a greater deposit, or a later instant. */
  lemma TiesAreOrdered(b: Boxes, now: Time, bounds: Bounds, pruned: set<Due>, reclaimed: set<Due>, c: Due, o: Due)
    requires SweepChooses(b, now, bounds, pruned, reclaimed)
    requires (c in pruned && o in DueDeposits(b, LinkBoxTime(now)) - pruned) || (c in reclaimed && o in DueBoxes(b, LinkBoxTime(now)) - reclaimed)
    ensures c.when <= o.when
    ensures c.when == o.when ==> c.box <= o.box
    ensures c.when == o.when && c.box == o.box ==> c.deposit < o.deposit
  {
    hide DueDeposits, DueBoxes, LinkBoxTime;
  }

  /** A batch removes exactly as many box rows as it chose. */
  lemma RowsRemoved(b: Boxes, now: Time, bounds: Bounds, pruned: set<Due>, reclaimed: set<Due>)
    requires SweepChooses(b, now, bounds, pruned, reclaimed)
    ensures |Swept(b, pruned, reclaimed).rows| + |reclaimed| == |b.rows|
  {
    hide Oldest, LinkBoxTime;
    assert reclaimed <= DueBoxes(b, LinkBoxTime(now)) by { ChoiceIsSome(reclaimed, DueBoxes(b, LinkBoxTime(now)), OrDefault(bounds).boxes); }
    IdsCard(b, reclaimed);
    var b' := Swept(b, pruned, reclaimed);
    assert b'.rows.Keys == b.rows.Keys - Ids(reclaimed);
    assert Ids(reclaimed) <= b.rows.Keys;
    assert |b'.rows| == |b'.rows.Keys| && |b.rows| == |b.rows.Keys|;
  }

  lemma ChoiceIsSome(chosen: set<Due>, all: set<Due>, bound: nat)
    requires Oldest(chosen, all, bound)
    ensures chosen <= all
  {
  }

  /** One due row to a box, so as many boxes as due rows. */
  lemma {:induction false} IdsCard(b: Boxes, gone: set<Due>)
    requires forall d :: d in gone ==> d.box in b.rows && d == DueBox(d.box, b.rows[d.box])
    ensures |Ids(gone)| == |gone|
  {
    if gone == {} {
      assert Ids(gone) == {};
    } else {
      var d :| d in gone;
      IdsCard(b, gone - {d});
      assert Ids(gone) == Ids(gone - {d}) + {d.box};
      assert d.box !in Ids(gone - {d});
    }
  }

  // ---- what a store goes through during a pass ----

  datatype Served = Served(op: Op, now: Time)

  ghost function Reached(b: Boxes, run: seq<Event>): Boxes {
    if |run| == 0 then b else Next(Reached(b, run[..|run| - 1]), run[|run| - 1])
  }

  /** Every batch of the run chose what a batch chooses, in the store it met. */
  ghost predicate Chosen(b: Boxes, run: seq<Event>) {
    forall i :: 0 <= i < |run| && run[i].SweepBatch? ==>
                  SweepChooses(Reached(b, run[..i]), run[i].now, run[i].bounds, run[i].pruned, run[i].reclaimed)
  }

  ghost function Batches(run: seq<Event>): nat {
    if |run| == 0 then 0 else Batches(run[..|run| - 1]) + if run[|run| - 1].SweepBatch? then 1 else 0
  }

  /** The rows the run's own batches removed, each counted in the store it met and the one it left. */
  ghost function BoxesRemoved(b: Boxes, run: seq<Event>): int {
    if |run| == 0 then 0
    else
      BoxesRemoved(b, run[..|run| - 1]) +
      if run[|run| - 1].SweepBatch? then |Reached(b, run[..|run| - 1]).rows| - |Reached(b, run).rows| else 0
  }

  ghost function DepositsPruned(run: seq<Event>): nat {
    if |run| == 0 then 0
    else DepositsPruned(run[..|run| - 1]) + if run[|run| - 1].SweepBatch? then |run[|run| - 1].pruned| else 0
  }

  ghost function ArmsIn(run: seq<Event>): seq<Served> {
    if |run| == 0 then []
    else
      var last := run[|run| - 1];
      ArmsIn(run[..|run| - 1]) + if last.Arm? then [Served(last.op, last.now)] else []
  }

  /** The arms of the first `n` gaps, one after another. */
  ghost function ServedBefore(arms: nat -> seq<Served>, n: nat): seq<Served> {
    if n == 0 then [] else ServedBefore(arms, n - 1) + arms(n - 1)
  }

  lemma RunOfNothing(b: Boxes, arms: nat -> seq<Served>)
    ensures Reached(b, []) == b && Chosen(b, []) && Batches([]) == 0 && BoxesRemoved(b, []) == 0 && DepositsPruned([]) == 0
    ensures ArmsIn([]) == ServedBefore(arms, 0)
  {
  }

  lemma OneMoreGap(arms: nat -> seq<Served>, n: nat)
    ensures ServedBefore(arms, n + 1) == ServedBefore(arms, n) + arms(n)
  {
  }

  lemma ChosenSoFar(b: Boxes, run: seq<Event>, e: Event)
    requires Chosen(b, run)
    requires e.SweepBatch? ==> SweepChooses(Reached(b, run), e.now, e.bounds, e.pruned, e.reclaimed)
    ensures Chosen(b, run + [e])
  {
    hide SweepChooses, Reached;
    var run' := run + [e];
    forall i | 0 <= i < |run'| && run'[i].SweepBatch?
      ensures SweepChooses(Reached(b, run'[..i]), run'[i].now, run'[i].bounds, run'[i].pruned, run'[i].reclaimed)
    {
      assert run'[..i] == run[..i];
      if i == |run| { assert run[..i] == run; }
    }
  }

  lemma RunWithArm(b: Boxes, run: seq<Event>, served: Served)
    requires Chosen(b, run)
    ensures var e := Arm(served.op, served.now);
            && Reached(b, run + [e]) == Step(Reached(b, run), served.op, served.now).0 && Chosen(b, run + [e])
            && Batches(run + [e]) == Batches(run) && ArmsIn(run + [e]) == ArmsIn(run) + [served]
            && BoxesRemoved(b, run + [e]) == BoxesRemoved(b, run) && DepositsPruned(run + [e]) == DepositsPruned(run)
  {
    hide Chosen, Step;
    var e := Arm(served.op, served.now);
    ChosenSoFar(b, run, e);
    assert (run + [e])[..|run|] == run;
  }

  lemma RunWithBatch(b: Boxes, run: seq<Event>, now: Time, bounds: Bounds, pruned: set<Due>, reclaimed: set<Due>)
    requires Chosen(b, run) && SweepChooses(Reached(b, run), now, bounds, pruned, reclaimed)
    ensures var e := SweepBatch(now, bounds, pruned, reclaimed);
            && Reached(b, run + [e]) == Swept(Reached(b, run), pruned, reclaimed) && Chosen(b, run + [e])
            && Batches(run + [e]) == Batches(run) + 1 && ArmsIn(run + [e]) == ArmsIn(run)
            && BoxesRemoved(b, run + [e]) == BoxesRemoved(b, run) + |reclaimed|
            && DepositsPruned(run + [e]) == DepositsPruned(run) + |pruned|
  {
    hide Chosen, Swept, SweepChooses;
    var e := SweepBatch(now, bounds, pruned, reclaimed);
    ChosenSoFar(b, run, e);
    RowsRemoved(Reached(b, run), now, bounds, pruned, reclaimed);
    assert (run + [e])[..|run|] == run;
  }

  class Job {
    const store: LinkBoxStore.Rows
    const bounds: Bounds
    const maxBatches: nat
    const budget: int

    /** A bound that names nothing takes its default. */
    constructor (store: LinkBoxStore.Rows, bounds: Bounds, maxBatches: int, budget: int)
      ensures this.store == store && this.bounds == OrDefault(bounds)
      ensures 0 < this.maxBatches && 0 < this.budget && 0 < this.bounds.deposits && 0 < this.bounds.boxes
      ensures this.maxBatches == (if maxBatches <= 0 then 50 else maxBatches)
      ensures this.budget == (if budget <= 0 then 20_000_000_000 else budget)
      ensures bounds == Bounds(0, 0) ==> this.bounds == Bounds(1000, 500)
    {
      this.store := store;
      this.bounds := OrDefault(bounds);
      this.maxBatches := if maxBatches <= 0 then DEFAULT_MAX_BATCHES else maxBatches;
      this.budget := if budget <= 0 then DEFAULT_BUDGET else budget;
    }

    /**
     One tick's work, with whatever arms `arms` says are served while it sleeps before each batch. The
     clock and the context are what `clock` and `cancelled` read at each reading in turn. `run` is what
     the store went through. The pass reports exactly the rows and deposits its own batches removed,
     whatever the arms did between them, and one that stops because a batch reached neither bound
     leaves nothing due at that batch's instant.
     */
    method Pass(clock: nat -> Time, cancelled: nat -> bool, arms: nat -> seq<Served>)
      returns (totals: Totals, stop: Stop, ghost run: seq<Event>)
      requires BoxesInv(store.State()) && 0 < bounds.deposits && 0 < bounds.boxes
      modifies store
      ensures BoxesInv(store.State()) && store.State() == Reached(old(store.State()), run) && Chosen(old(store.State()), run)
      ensures totals.batches == Batches(run) <= maxBatches
      ensures totals.boxes == BoxesRemoved(old(store.State()), run) && totals.deposits == DepositsPruned(run)
      ensures ArmsIn(run) == ServedBefore(arms, totals.batches) || ArmsIn(run) == ServedBefore(arms, totals.batches + 1)
      ensures stop.Drained? ==>
                && run != [] && run[|run| - 1].SweepBatch? && run[|run| - 1].now == stop.at
                && NothingDue(store.State(), LinkBoxTime(stop.at))
      ensures stop.OutOfBatches? ==> totals.batches == maxBatches
    {
      hide BoxesInv, SweepChooses, Swept, NothingDue, LinkBoxTime, store.State, Step, Reached, Chosen, Batches, BoxesRemoved, DepositsPruned, ArmsIn, ServedBefore;
      totals, run := Totals(0, 0, 0), [];
      RunOfNothing(store.State(), arms);
      var started := clock(0);
      var reading := 1;
      while totals.batches < maxBatches
        invariant totals.batches <= maxBatches
        invariant BoxesInv(store.State()) && store.State() == Reached(old(store.State()), run) && Chosen(old(store.State()), run)
        invariant totals.batches == Batches(run) && ArmsIn(run) == ServedBefore(arms, totals.batches)
        invariant totals.boxes == BoxesRemoved(old(store.State()), run) && totals.deposits == DepositsPruned(run)
        decreases maxBatches - totals.batches
      {
        run := ServeGap(arms(totals.batches), old(store.State()), run);
        OneMoreGap(arms, totals.batches);
        if totals.batches != 0 {
          if budget <= clock(reading) - started {
            return totals, OutOfBudget, run;
          }
          reading := reading + 1;
        }
        if cancelled(totals.batches) {
          return totals, Cancelled, run;
        }
        var now := clock(reading);
        reading := reading + 1;
        ghost var before := store.State();
        var deposits, boxes, pruned, reclaimed := store.Sweep(now, bounds);
        RowsRemoved(before, now, bounds, pruned, reclaimed);
        RunWithBatch(old(store.State()), run, now, bounds, pruned, reclaimed);
        run := run + [SweepBatch(now, bounds, pruned, reclaimed)];
        totals := Totals(totals.batches + 1, totals.deposits + deposits, totals.boxes + boxes);
        if deposits < bounds.deposits && boxes < bounds.boxes {
          ShortBatchDrains(before, now, bounds, pruned, reclaimed);
          return totals, Drained(now), run;
        }
      }
      stop := OutOfBatches;
    }

    /** The arms served in one gap, each whole under the store's mutex. */
    method ServeGap(served: seq<Served>, ghost origin: Boxes, ghost before: seq<Event>) returns (ghost run: seq<Event>)
      requires BoxesInv(store.State()) && store.State() == Reached(origin, before) && Chosen(origin, before)
      modifies store
      ensures BoxesInv(store.State()) && store.State() == Reached(origin, run) && Chosen(origin, run)
      ensures Batches(run) == Batches(before) && ArmsIn(run) == ArmsIn(before) + served
      ensures BoxesRemoved(origin, run) == BoxesRemoved(origin, before) && DepositsPruned(run) == DepositsPruned(before)
    {
      hide BoxesInv, store.State, Step, Reached, Chosen, Batches, BoxesRemoved, DepositsPruned, ArmsIn;
      run := before;
      for i := 0 to |served|
        invariant BoxesInv(store.State()) && store.State() == Reached(origin, run) && Chosen(origin, run)
        invariant Batches(run) == Batches(before) && ArmsIn(run) == ArmsIn(before) + served[..i]
        invariant BoxesRemoved(origin, run) == BoxesRemoved(origin, before) && DepositsPruned(run) == DepositsPruned(before)
      {
        RunWithArm(origin, run, served[i]);
        var answer := store.Serve(served[i].op, served[i].now);
        run := run + [Arm(served[i].op, served[i].now)];
        assert served[..i + 1] == served[..i] + [served[i]];
      }
      assert served[..|served|] == served;
    }
  }
}
