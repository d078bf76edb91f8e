/**
 A write between two lives of a box. An arm reads a box and verifies its caller under a key pinned
 there; anything may happen before it writes, the box swept and another registered at its id among it.
 */
module LinkBoxLives {
  import opened Common
  import opened Records
  import opened LinkBoxes
  import opened LinkBoxRuns
  import opened LinkBoxLedger

  /** How many boxes have been registered at each id. */
  type Lives = map<BoxId, nat>

  function LifeAt(lives: Lives, id: BoxId): nat {
    if id in lives then lives[id] else 0
  }

  /** Only a Register begins a life, where it makes a row that was not there. */
  ghost function LivesAfter(b: Boxes, lives: Lives, e: Event): Lives {
    if e.Arm? && e.op.Register? && e.op.id !in b.rows && e.op.id in Next(b, e).rows
    then lives[e.op.id := LifeAt(lives, e.op.id) + 1] else lives
  }

  ghost function Run(b: Boxes, lives: Lives, events: seq<Event>): (Boxes, Lives)
    decreases |events|
  {
    if |events| == 0 then (b, lives) else Run(Next(b, events[0]), LivesAfter(b, lives, events[0]), events[1..])
  }

  lemma SameLifeTransitive(a: BoxRow, b: BoxRow, c: BoxRow)
    requires SameLife(a, b) && SameLife(b, c)
    ensures SameLife(a, c)
  {
  }

  /** One event keeps a row's life, ends it, or begins another where there was none. */
  lemma EventKeepsLife(b: Boxes, lives: Lives, e: Event, id: BoxId)
    ensures var b', lives' := Next(b, e), LivesAfter(b, lives, e);
            && (id in b.rows && id in b'.rows ==> SameLife(b.rows[id], b'.rows[id]) && LifeAt(lives', id) == LifeAt(lives, id))
            && (id !in b.rows && id in b'.rows ==> LifeAt(lives', id) == LifeAt(lives, id) + 1)
            && LifeAt(lives, id) <= LifeAt(lives', id)
  {
    hide SameLife, LinkBoxTime, LiveIds, FindHash, Swept;
    match e
    case Arm(op, now) =>
      if id in b.rows { StepKeepsLives(b, op, now, id); } else if id in Next(b, e).rows { NoArmMakesIt(b, op, now, id); }
    case SweepBatch(_, _, pruned, reclaimed) =>
      SweptRow(b, pruned, reclaimed, id);
      if id in b.rows && id in Next(b, e).rows { SweepKeepsLives(b, pruned, reclaimed, id); }
  }

  lemma NoArmMakesIt(b: Boxes, op: Op, now: Time, id: BoxId)
    requires id !in b.rows && id in Step(b, op, now).0.rows
    ensures op.Register? && op.id == id
  {
    hide LinkBoxTime, LiveIds, FindHash;
  }

  /** A row found at the end of a run under the life it began with is that same row, never absent between. */
  lemma {:induction false} RunKeepsLife(b: Boxes, lives: Lives, events: seq<Event>, id: BoxId)
    ensures var (b', lives') := Run(b, lives, events);
            && LifeAt(lives, id) <= LifeAt(lives', id)
            && (id in b.rows && id in b'.rows && LifeAt(lives', id) == LifeAt(lives, id) ==> SameLife(b.rows[id], b'.rows[id]))
            && (id !in b.rows && id in b'.rows ==> LifeAt(lives, id) < LifeAt(lives', id))
    decreases |events|
  {
    hide SameLife, Next, LivesAfter;
    if |events| == 0 {
      if id in b.rows { SameLifeReflexive(b.rows[id]); }
    } else {
      var b1, lives1 := Next(b, events[0]), LivesAfter(b, lives, events[0]);
      EventKeepsLife(b, lives, events[0], id);
      RunKeepsLife(b1, lives1, events[1..], id);
      var (b', lives') := Run(b, lives, events);
      if id in b.rows && id in b'.rows && LifeAt(lives', id) == LifeAt(lives, id) {
        SameLifeTransitive(b.rows[id], b1.rows[id], b'.rows[id]);
      }
    }
  }

  lemma SameLifeReflexive(row: BoxRow)
    ensures SameLife(row, row)
  {
  }

  /**
   A write verified against the box that was read, after any run of arms and sweeps at all: on that
   same life it acts exactly while the box is live; on a later life at the id exactly when that one is
   live and pinned under the same key; on no box, or otherwise, it changes nothing. It never touches
   another id.
   */
  lemma WriteAfterRead(b: Boxes, lives: Lives, events: seq<Event>, op: Op, now: Time)
    requires ShapeError(op).None? && (op.Deposit? || op.Collect? || op.Retire?)
    requires op.id in b.rows && op.verifiedPub == PinnedKey(b.rows[op.id], op)
    ensures var (later, lives') := Run(b, lives, events);
            var (written, answer) := Step(later, op, now);
            var live := op.id in later.rows && Live(later.rows[op.id], LinkBoxTime(now));
            var acts := answer.reason != ReasonCardRetired;
            && (LifeAt(lives', op.id) == LifeAt(lives, op.id) ==> (acts <==> live))
            && (LifeAt(lives', op.id) != LifeAt(lives, op.id) ==>
                  (acts <==> live && PinnedKey(later.rows[op.id], op) == PinnedKey(b.rows[op.id], op)))
            && (!acts ==> written == later)
            && SameElsewhere(later, written, op.id)
  {
    hide Run, Step, LinkBoxTime;
    var (later, lives') := Run(b, lives, events);
    RunKeepsLife(b, lives, events, op.id);
    WriteActsOnTheVerifiedBox(later, op, now);
  }

  // ---- the same code registered again ----

  const NOTHING := Boxes(map[], map[])

  function Registering(id: BoxId, registration: Registration): Op {
    Register(id, registration, 1000, 1)
  }

  /** Registered at 0 for a microsecond, swept at its expiry, and registered again with the same keys. */
  ghost function TwoLives(id: BoxId, registration: Registration): seq<Event> {
    [Arm(Registering(id, registration), 0), SweepBatch(1000, Bounds(1, 1), {}, {Due(1000, id, 0)}), Arm(Registering(id, registration), 1000)]
  }

  ghost function OneBox(id: BoxId, registration: Registration, t: Time): Boxes {
    Boxes(map[id := NewRow(registration, t, t + 1000)], map[])
  }

  lemma LifeBegins(id: BoxId, registration: Registration, t: Time, lives: Lives)
    requires ShapeError(Registering(id, registration)).None? && LinkBoxTime(t) == t
    ensures Next(NOTHING, Arm(Registering(id, registration), t)) == OneBox(id, registration, t)
    ensures LivesAfter(NOTHING, lives, Arm(Registering(id, registration), t)) == lives[id := LifeAt(lives, id) + 1]
  {
    assert LiveIds(NOTHING, LinkBoxTime(t)) == {};
    assert LinkBoxTime(t + 1000) == t + 1000;
  }

  lemma LifeIsSwept(id: BoxId, registration: Registration)
    ensures var b := OneBox(id, registration, 0);
            && SweepChooses(b, 1000, Bounds(1, 1), {}, {Due(1000, id, 0)})
            && Swept(b, {}, {Due(1000, id, 0)}) == NOTHING
  {
    var b := OneBox(id, registration, 0);
    assert LinkBoxTime(1000) == 1000 && b.rows[id].reclaimAfter == 1000;
    assert DueDeposits(b, 1000) == {};
    assert DueBox(id, b.rows[id]) in DueBoxes(b, 1000);
    assert DueBoxes(b, 1000) == {Due(1000, id, 0)};
    assert Ids({Due(1000, id, 0)}) == {id};
  }

  lemma LifeIsCollected(id: BoxId, registration: Registration)
    requires ShapeError(Registering(id, registration)).None?
    ensures Step(OneBox(id, registration, 1000), Collect(id, registration.collectPub, 0, 0, 0), 1000).1.reason == ReasonOk
  {
    assert LinkBoxTime(1000) == 1000;
  }

  lemma TwoLivesAreLegal(id: BoxId, registration: Registration)
    requires ShapeError(Registering(id, registration)).None?
    ensures Legal(NOTHING, TwoLives(id, registration))
  {
    hide Step, Swept, SweepChooses, OneBox;
    var events := TwoLives(id, registration);
    LifeBegins(id, registration, 0, map[]);
    LifeIsSwept(id, registration);
    LifeBegins(id, registration, 1000, map[]);
    assert events[1..][1..] == events[2..] && events[2..][1..] == [];
    assert Legal(Step(NOTHING, Registering(id, registration), 1000).0, []);
    assert Legal(NOTHING, events[2..]);
    assert Legal(OneBox(id, registration, 0), events[1..]);
  }

  lemma TwoLivesAreLived(id: BoxId, registration: Registration)
    requires ShapeError(Registering(id, registration)).None?
    ensures Run(OneBox(id, registration, 0), map[id := 1], TwoLives(id, registration)[1..]) == (OneBox(id, registration, 1000), map[id := 2])
  {
    hide Step, Swept, SweepChooses, OneBox;
    var events := TwoLives(id, registration);
    LifeIsSwept(id, registration);
    LifeBegins(id, registration, 1000, map[id := 1]);
    assert events[1..][1..] == events[2..] && events[2..][1..] == [];
    assert map[id := 1][id := 2] == map[id := 2];
    assert Run(OneBox(id, registration, 1000), map[id := 2], []) == (OneBox(id, registration, 1000), map[id := 2]);
    assert Run(NOTHING, map[id := 1], events[2..]) == (OneBox(id, registration, 1000), map[id := 2]);
  }

  /**
   A Collect verified against the first life, and written in the second, is acted on there: a write is
   not tied to the box it was verified against but to the keys.
   */
  lemma ActedOnInALaterLife(id: BoxId, registration: Registration)
    requires ShapeError(Registering(id, registration)).None?
    ensures Legal(NOTHING, TwoLives(id, registration))
    ensures var events := TwoLives(id, registration);
            var first, lives := Next(NOTHING, events[0]), LivesAfter(NOTHING, map[], events[0]);
            var (later, lives') := Run(first, lives, events[1..]);
            var op := Collect(id, registration.collectPub, 0, 0, 0);
            && id in first.rows && op.verifiedPub == PinnedKey(first.rows[id], op)
            && LifeAt(lives, id) == 1 && LifeAt(lives', id) == 2
            && Step(later, op, 1000).1.reason == ReasonOk
  {
    hide Step, Run, Legal;
    TwoLivesAreLegal(id, registration);
    LifeBegins(id, registration, 0, map[]);
    TwoLivesAreLived(id, registration);
    LifeIsCollected(id, registration);
  }

  /** The same second Register without the sweep between: refused, where with it it makes a box. */
  lemma UnsweptIsRefused(id: BoxId, registration: Registration)
    requires ShapeError(Registering(id, registration)).None?
    ensures Step(OneBox(id, registration, 0), Registering(id, registration), 1000).1 == Registered(ReasonRejected, 0, 0)
    ensures Step(NOTHING, Registering(id, registration), 1000).1 == Registered(ReasonOk, 2000, 0)
  {
    assert LiveIds(NOTHING, LinkBoxTime(1000)) == {};
  }
}
