/**
 The link boxes as mutable rows: each arm and each sweep batch as the loops that read and write
 them, and the job that runs batches until one reaches neither bound.
 */
module LinkBoxStore {
  import opened Common
  import opened Records
  import opened LinkBoxes
  import opened LinkBoxRuns

  // ---- ordering what is due ----

  ghost predicate InOrder(s: seq<Due>) {
    forall i, j :: 0 <= i < j < |s| ==> Before(s[i], s[j])
  }

  ghost predicate Distinct(s: seq<Due>) {
    forall i, j :: 0 <= i < j < |s| ==> s[i] != s[j]
  }

  ghost function Elements(s: seq<Due>): set<Due> {
    set d | d in s
  }

  function Insert(d: Due, s: seq<Due>): (r: seq<Due>)
    requires InOrder(s) && d !in s
    ensures InOrder(r) && |r| == |s| + 1 && forall e :: e in r <==> e == d || e in s
  {
    if |s| == 0 then [d]
    else if Before(d, s[0]) then [d] + s
    else
      var rest := Insert(d, s[1..]);
      assert forall e :: e in rest ==> Before(s[0], e) by {
        assert forall e :: e in s[1..] ==> exists i :: 1 <= i < |s| && s[i] == e;
      }
      assert forall e :: e in s <==> e == s[0] || e in s[1..];
      [s[0]] + rest
  }

  /** The rows in order, oldest first. */
  function Sort(s: seq<Due>): (r: seq<Due>)
    requires Distinct(s)
    ensures InOrder(r) && |r| == |s| && forall e :: e in r <==> e in s
  {
    if |s| == 0 then []
    else
      assert forall e :: e in s <==> e == s[0] || e in s[1..];
      Insert(s[0], Sort(s[1..]))
  }

  lemma {:induction false} DistinctCard(s: seq<Due>)
    requires Distinct(s)
    ensures |Elements(s)| == |s|
  {
    if |s| == 0 {
      assert Elements(s) == {};
    } else {
      var n := |s| - 1;
      DistinctCard(s[..n]);
      assert Elements(s) == Elements(s[..n]) + {s[n]};
      assert s[n] !in Elements(s[..n]);
    }
  }

  lemma OrderIsDistinct(s: seq<Due>)
    requires InOrder(s)
    ensures Distinct(s)
  {
  }

  /** The first `n` of what is due, in order, are the oldest `n`. */
  lemma FrontIsOldest(s: seq<Due>, all: set<Due>, bound: nat)
    requires InOrder(s) && Elements(s) == all
    ensures Oldest(Elements(s[..Min(bound, |s|)]), all, bound)
  {
    var n := Min(bound, |s|);
    OrderIsDistinct(s);
    DistinctCard(s);
    DistinctCard(s[..n]);
    var chosen := Elements(s[..n]);
    forall c, o | c in chosen && o in all && o !in chosen ensures Before(c, o) {
      var i :| 0 <= i < n && s[i] == c;
      var j :| 0 <= j < |s| && s[j] == o;
    }
  }

  // ---- removing what was chosen, one row at a time ----

  lemma {:induction false} KeepTwice(standing: seq<DepositRow>, gone: set<Due>, d: Due)
    ensures Keep(Keep(standing, gone), {d}) == Keep(standing, gone + {d})
  {
    if |standing| != 0 {
      var n := |standing| - 1;
      KeepTwice(standing[..n], gone, d);
      var rest := Keep(standing[..n], gone);
      assert (rest + [standing[n]])[..|rest|] == rest;
    }
  }

  lemma {:induction false} KeepNothing(standing: seq<DepositRow>)
    ensures Keep(standing, {}) == standing
  {
    if |standing| != 0 { KeepNothing(standing[..|standing| - 1]); }
  }

  lemma SubsetCard<T>(a: set<T>, b: set<T>)
    requires a <= b
    ensures |a| <= |b| && (|a| == |b| ==> a == b)
  {
    assert b == a + (b - a) && a !! (b - a);
    assert |b| == |a| + |b - a|;
  }

  /** The deposits map, without the entries that hold nothing. */
  ghost function Nonempty(deposits: map<BoxId, seq<DepositRow>>): map<BoxId, seq<DepositRow>> {
    map id | id in deposits && deposits[id] != [] :: deposits[id]
  }

  lemma NonemptyUpdate(deposits: map<BoxId, seq<DepositRow>>, id: BoxId, standing: seq<DepositRow>)
    ensures Nonempty(deposits[id := standing]) == WithDeposits(Nonempty(deposits), id, standing)
  {
  }

  lemma NonemptyRemove(deposits: map<BoxId, seq<DepositRow>>, gone: set<BoxId>)
    ensures Nonempty(deposits - gone) == Nonempty(deposits) - gone
  {
  }

  class Rows {
    var boxes: map<BoxId, BoxRow>
    var deposits: map<BoxId, seq<DepositRow>>

    ghost function State(): Boxes
      reads this
    {
      Boxes(boxes, Nonempty(deposits))
    }

    constructor ()
      ensures State() == Boxes(map[], map[]) && BoxesInv(State())
    {
      boxes, deposits := map[], map[];
    }

    /** The deposits standing at an id. */
    function At(id: BoxId): seq<DepositRow>
      reads this
    {
      if id in deposits then deposits[id] else []
    }

    lemma AtIsStanding(id: BoxId)
      ensures At(id) == Standing(State(), id)
    {
    }

    method CountLive(now: Time) returns (live: nat)
      ensures live == |LiveIds(State(), LinkBoxTime(now))|
    {
      var t := LinkBoxTime(now);
      live := 0;
      var todo := boxes.Keys;
      ghost var counted: set<BoxId> := {};
      while todo != {}
        invariant todo <= boxes.Keys && live == |counted|
        invariant counted == set id | id in boxes && id !in todo && Live(boxes[id], t)
        decreases todo
      {
        var id :| id in todo;
        if Live(boxes[id], t) {
          live := live + 1;
          counted := counted + {id};
        }
        todo := todo - {id};
      }
      assert counted == LiveIds(State(), t);
    }

    /** Register: a standing row answers by itself; only an id with no row is held to the cap. */
    method Register(id: BoxId, registration: Registration, ttl: int, liveCap: nat, now: Time) returns (answer: Answer)
      modifies this
      ensures (State(), answer) == RegisterStep(old(State()), id, registration, ttl, liveCap, now)
    {
      hide LinkBoxTime, LiveIds;
      var t := LinkBoxTime(now);
      if id in boxes {
        if Live(boxes[id], t) && SameRegistration(boxes[id], registration) {
          return Registered(ReasonOk, boxes[id].expireTime, boxes[id].depositCount);
        }
        return Registered(ReasonRejected, 0, 0);
      }
      var live := CountLive(now);
      if liveCap <= live {
        return Registered(ReasonCardRateLimited, 0, 0);
      }
      var expire := LinkBoxTime(t + ttl);
      boxes := boxes[id := NewRow(registration, t, expire)];
      return Registered(ReasonOk, expire, 0);
    }

    /** Deposit: only into a live box pinned under the verified key, at most twice over its life. */
    method Deposit(id: BoxId, verifiedPub: Bytes, ct: Bytes, hash: Bytes, now: Time) returns (answer: Answer)
      modifies this
      ensures (State(), answer) == DepositStep(old(State()), id, verifiedPub, ct, hash, now)
    {
      hide LinkBoxTime, TakeDeposit;
      var t := LinkBoxTime(now);
      if id !in boxes || !Live(boxes[id], t) || boxes[id].depositPub != verifiedPub {
        return Deposited(ReasonCardRetired, 0, [], 0, false);
      }
      answer := Take(id, ct, hash, t);
    }

    method Take(id: BoxId, ct: Bytes, hash: Bytes, t: Time) returns (answer: Answer)
      requires id in boxes
      modifies this
      ensures (State(), answer) == TakeDeposit(old(State()), id, ct, hash, t)
    {
      hide FindHash, Nonempty, WithDeposits;
      AtIsStanding(id);
      var row, standing := boxes[id], At(id);
      var i := Search(standing, hash);
      if i < |standing| {
        return Deposited(ReasonOk, standing[i].depositId, standing[i].hash, row.depositCount, true);
      }
      if row.nextDepositId >= LINK_BOX_DEPOSITS + 1 {
        boxes := boxes[id := row.(refusedCount := row.refusedCount + 1)];
        return Deposited(ReasonCardRateLimited, 0, [], 0, false);
      }
      var taken := DepositRow(id, row.nextDepositId, hash, ct, t, row.expireTime);
      NonemptyUpdate(deposits, id, standing + [taken]);
      deposits := deposits[id := standing + [taken]];
      boxes := boxes[id := row.(nextDepositId := row.nextDepositId + 1, depositCount := row.depositCount + 1)];
      return Deposited(ReasonOk, row.nextDepositId, hash, row.depositCount + 1, false);
    }

    /** Collect: delete exactly through the acknowledgement, then answer what is left after `since`. */
    method Collect(id: BoxId, verifiedPub: Bytes, since: nat, ackThrough: nat, limit: nat, now: Time) returns (answer: Answer)
      modifies this
      ensures (State(), answer) == CollectStep(old(State()), id, verifiedPub, since, ackThrough, limit, now)
    {
      hide LinkBoxTime, After, Nonempty, WithDeposits;
      if id !in boxes || !Live(boxes[id], LinkBoxTime(now)) || boxes[id].collectPub != verifiedPub {
        return Collected(ReasonCardRetired, [], 0, 0, 0, false);
      }
      AtIsStanding(id);
      var row := boxes[id];
      var kept := FilterAfter(At(id), ackThrough);
      var after := FilterAfter(kept, since);
      NonemptyUpdate(deposits, id, kept);
      deposits := deposits[id := kept];
      boxes := boxes[id := row.(refusedCount := 0, depositCount := |kept|)];
      if limit != 0 && |after| > limit {
        return Collected(ReasonOk, after[..limit], |kept|, row.refusedCount, row.expireTime, false);
      }
      return Collected(ReasonOk, after, |kept|, row.refusedCount, row.expireTime, true);
    }

    /** Retire: every deposit goes, and the row stays as a tombstone. */
    method Retire(id: BoxId, verifiedPub: Bytes, now: Time) returns (answer: Answer)
      modifies this
      ensures (State(), answer) == RetireStep(old(State()), id, verifiedPub, now)
    {
      hide LinkBoxTime, Nonempty;
      var t := LinkBoxTime(now);
      if id !in boxes || !Live(boxes[id], t) || boxes[id].collectPub != verifiedPub {
        return Retired(ReasonCardRetired, 0);
      }
      AtIsStanding(id);
      var discarded := |At(id)|;
      NonemptyRemove(deposits, {id});
      deposits := deposits - {id};
      boxes := boxes[id := boxes[id].(retiredTime := Some(t), depositCount := 0)];
      return Retired(ReasonOk, discarded);
    }

    /** One arm, its shape checked before anything is read. */
    method Serve(op: Op, now: Time) returns (answer: Answer)
      requires BoxesInv(State())
      modifies this
      ensures (State(), answer) == Step(old(State()), op, now) && BoxesInv(State())
    {
      hide BoxesInv, State, RegisterStep, DepositStep, CollectStep, RetireStep, LiveIds, LinkBoxTime;
      StepKeepsInv(State(), op, now);
      var shape := ShapeError(op);
      if shape.Some? { return BadShape(shape.value); }
      match op
      case Register(id, registration, ttl, liveCap) => answer := Register(id, registration, ttl, liveCap, now);
      case Open(id) => answer := Look(id, now);
      case Deposit(id, verifiedPub, ct, hash) => answer := Deposit(id, verifiedPub, ct, hash, now);
      case Collect(id, verifiedPub, since, ackThrough, limit) =>
        answer := Collect(id, verifiedPub, since, ackThrough, limit, now);
      case Retire(id, verifiedPub) => answer := Retire(id, verifiedPub, now);
      case CountLive =>
        var live := CountLive(now);
        answer := Counted(live);
    }

    method Look(id: BoxId, now: Time) returns (answer: Answer)
      ensures answer == OpenStep(State(), id, now)
    {
      if id in boxes && Live(boxes[id], LinkBoxTime(now)) {
        return Opened(ReasonOk, boxes[id].depositPub, boxes[id].collectPub, boxes[id].publicCt);
      }
      return Opened(ReasonCardRetired, [], [], []);
    }

    /** The due deposits of one box, in the order they stand. */
    method GatherBox(id: BoxId, t: Time) returns (due: seq<Due>)
      requires forall i, j :: 0 <= i < j < |At(id)| ==> At(id)[i].depositId < At(id)[j].depositId
      requires forall i :: 0 <= i < |At(id)| ==> At(id)[i].box == id
      ensures Distinct(due) && forall d :: d in due <==> IsDue(At(id), t, d)
    {
      due := [];
      var standing := At(id);
      for i := 0 to |standing|
        invariant Distinct(due)
        invariant forall d :: d in due <==> IsDue(standing[..i], t, d)
      {
        IsDueStep(standing, i, t);
        if standing[i].pruneAfter <= t {
          assert DueOf(standing[i]) !in due;
          due := due + [DueOf(standing[i])];
        }
      }
      assert standing[..|standing|] == standing;
    }

    /** Every due deposit of every box, in no particular order. */
    method GatherDeposits(t: Time) returns (due: seq<Due>)
      requires BoxesInv(State())
      ensures Distinct(due) && Elements(due) == DueDeposits(State(), t)
    {
      hide BoxesInv;
      due := [];
      var todo := deposits.Keys;
      while todo != {}
        invariant todo <= deposits.Keys && Distinct(due)
        invariant forall d :: d in due <==> d.box in deposits && d.box !in todo && IsDue(At(d.box), t, d)
        decreases todo
      {
        var id :| id in todo;
        StandingInOrder(id);
        var some := GatherBox(id, t);
        assert forall d :: d in some ==> d.box == id;
        due := due + some;
        todo := todo - {id};
      }
      forall d ensures d in due <==> d in DueDeposits(State(), t) { DueIsDue(t, d); }
    }

    lemma StandingInOrder(id: BoxId)
      requires BoxesInv(State())
      ensures forall i, j :: 0 <= i < j < |At(id)| ==> At(id)[i].depositId < At(id)[j].depositId
      ensures forall i :: 0 <= i < |At(id)| ==> At(id)[i].box == id
    {
      AtIsStanding(id);
      if At(id) != [] { SoundAt(State(), id); }
    }

    lemma DueIsDue(t: Time, d: Due)
      requires BoxesInv(State())
      ensures d in DueDeposits(State(), t) <==> d.box in deposits && IsDue(At(d.box), t, d)
    {
      if d in DueDeposits(State(), t) {
        var b := State();
        var id, i :| id in b.deposits && 0 <= i < |b.deposits[id]| && b.deposits[id][i].pruneAfter <= t && d == DueOf(b.deposits[id][i]);
        StandingInOrder(id);
        assert At(id)[i] == b.deposits[id][i];
      }
      if d.box in deposits && IsDue(At(d.box), t, d) {
        var i :| 0 <= i < |At(d.box)| && At(d.box)[i].pruneAfter <= t && d == DueOf(At(d.box)[i]);
        assert d.box in State().deposits && State().deposits[d.box][i] == At(d.box)[i];
      }
    }

    /** Every due box, in no particular order. */
    method GatherBoxes(t: Time) returns (due: seq<Due>)
      ensures Distinct(due) && Elements(due) == DueBoxes(State(), t)
    {
      due := [];
      var todo := boxes.Keys;
      while todo != {}
        invariant todo <= boxes.Keys && Distinct(due)
        invariant forall d :: d in due <==>
          d.box in boxes && d.box !in todo && boxes[d.box].reclaimAfter <= t && d == DueBox(d.box, boxes[d.box])
        decreases todo
      {
        var id :| id in todo;
        if boxes[id].reclaimAfter <= t {
          due := due + [DueBox(id, boxes[id])];
        }
        todo := todo - {id};
      }
    }

    /** The chosen deposits deleted one at a time, and every box that lost one recounted. */
    method Prune(due: seq<Due>)
      requires BoxesInv(State())
      modifies this
      ensures State() == PruneDeposits(old(State()), Elements(due))
    {
      hide Keep, BoxesInv;
      var touched := {};
      forall id ensures At(id) == Keep(At(id), {}) && At(id) == Standing(State(), id) {
        KeepNothing(At(id));
        AtIsStanding(id);
      }
      assert Elements(due[..0]) == {};
      forall id ensures forall i :: 0 <= i < |At(id)| ==> At(id)[i].box == id { StandingInOrder(id); }
      for j := 0 to |due|
        invariant boxes == old(boxes)
        invariant forall id :: At(id) == Keep(old(At(id)), Elements(due[..j]))
        invariant touched == Ids(Elements(due[..j]))
      {
        var d := due[j];
        ghost var gone := Elements(due[..j]);
        assert Elements(due[..j + 1]) == gone + {d};
        DeleteDeposit(d);
        forall id ensures At(id) == Keep(old(At(id)), gone + {d}) {
          if id == d.box { KeepTwice(old(At(id)), gone, d); } else { KeepOther(old(At(id)), gone, d); }
        }
        touched := touched + {d.box};
      }
      assert due[..|due|] == due;
      Recount(touched);
      forall id ensures Standing(State(), id) == Keep(Standing(old(State()), id), Elements(due)) {
        AtIsStanding(id);
        assert old(At(id)) == Standing(old(State()), id);
      }
      PrunedIsPruned(old(State()), Elements(due), State());
    }

    method DeleteDeposit(d: Due)
      modifies `deposits
      ensures forall id :: At(id) == if id == d.box then Keep(old(At(id)), {d}) else old(At(id))
    {
      hide Keep;
      var kept := Keep(At(d.box), {d});
      deposits := if kept == [] then deposits - {d.box} else deposits[d.box := kept];
    }

    /** The chosen boxes deleted one at a time, each with what it still holds. */
    method Reclaim(due: seq<Due>)
      modifies this
      ensures State() == ReclaimBoxes(old(State()), Elements(due))
    {
      for j := 0 to |due|
        invariant boxes == old(boxes) - Ids(Elements(due[..j]))
        invariant deposits == old(deposits) - Ids(Elements(due[..j]))
      {
        assert Elements(due[..j + 1]) == Elements(due[..j]) + {due[j]};
        assert Ids(Elements(due[..j + 1])) == Ids(Elements(due[..j])) + {due[j].box};
        boxes := boxes - {due[j].box};
        deposits := deposits - {due[j].box};
      }
      assert due[..|due|] == due;
      NonemptyRemove(old(deposits), Ids(Elements(due)));
    }

    /** One batch of the sweep, with what it chose. */
    method Sweep(now: Time, bounds: Bounds)
      returns (prunedCount: nat, reclaimedCount: nat, ghost pruned: set<Due>, ghost reclaimed: set<Due>)
      requires BoxesInv(State())
      modifies this
      ensures SweepChooses(old(State()), now, bounds, pruned, reclaimed)
      ensures State() == Swept(old(State()), pruned, reclaimed) && BoxesInv(State())
      ensures prunedCount == |pruned| && reclaimedCount == |reclaimed|
    {
      hide BoxesInv, PruneDeposits, ReclaimBoxes, Oldest, State, DueDeposits, DueBoxes, Elements, LinkBoxTime, InOrder, Distinct;
      var t, limits := LinkBoxTime(now), OrDefault(bounds);
      var due := GatherDeposits(t);
      var oldest := OldestFirst(due, limits.deposits);
      pruned, prunedCount := Elements(oldest), |oldest|;
      Prune(oldest);
      PruneKeepsDueBoxes(old(State()), pruned, t);
      due := GatherBoxes(t);
      oldest := OldestFirst(due, limits.boxes);
      reclaimed, reclaimedCount := Elements(oldest), |oldest|;
      Reclaim(oldest);
      SweepKeepsInv(old(State()), pruned, reclaimed);
    }

    method Recount(touched: set<BoxId>)
      modifies `boxes
      ensures boxes.Keys == old(boxes.Keys)
      ensures forall id :: id in boxes ==>
        boxes[id] == if id in touched then old(boxes)[id].(depositCount := |At(id)|) else old(boxes)[id]
    {
      var todo := touched;
      while todo != {}
        invariant todo <= touched && boxes.Keys == old(boxes.Keys)
        invariant forall id :: id in boxes ==>
          boxes[id] == if id in touched && id !in todo then old(boxes)[id].(depositCount := |At(id)|) else old(boxes)[id]
        decreases todo
      {
        var id :| id in todo;
        if id in boxes {
          boxes := boxes[id := boxes[id].(depositCount := |At(id)|)];
        }
        todo := todo - {id};
      }
    }
  }

  lemma {:induction false} KeepOther(standing: seq<DepositRow>, gone: set<Due>, d: Due)
    requires forall i :: 0 <= i < |standing| ==> standing[i].box != d.box
    ensures Keep(standing, gone + {d}) == Keep(standing, gone)
  {
    if |standing| != 0 { KeepOther(standing[..|standing| - 1], gone, d); }
  }

  /** What is due, sorted oldest first and cut at the bound. */
  method OldestFirst(due: seq<Due>, bound: nat) returns (chosen: seq<Due>)
    requires Distinct(due)
    ensures Oldest(Elements(chosen), Elements(due), bound) && |Elements(chosen)| == |chosen|
  {
    hide Oldest;
    var sorted := Sort(due);
    assert Elements(sorted) == Elements(due);
    FrontIsOldest(sorted, Elements(due), bound);
    chosen := if |sorted| > bound then sorted[..bound] else sorted;
    assert chosen == sorted[..Min(bound, |sorted|)];
    OrderIsDistinct(sorted);
    DistinctCard(chosen);
  }

  lemma PruneKeepsDueBoxes(b: Boxes, gone: set<Due>, t: Time)
    ensures DueBoxes(PruneDeposits(b, gone), t) == DueBoxes(b, t)
  {
    var b' := PruneDeposits(b, gone);
    forall id | id in b.rows ensures DueBox(id, b'.rows[id]) == DueBox(id, b.rows[id]) {}
  }

  /** The rows a sweep leaves, told by what stands in each box. */
  lemma PrunedIsPruned(b: Boxes, gone: set<Due>, b': Boxes)
    requires forall id :: id in b'.deposits ==> b'.deposits[id] != []
    requires forall id :: Standing(b', id) == Keep(Standing(b, id), gone)
    requires b'.rows.Keys == b.rows.Keys
    requires forall id :: id in b.rows ==>
      b'.rows[id] == if id in Ids(gone) then b.rows[id].(depositCount := |Standing(b', id)|) else b.rows[id]
    ensures b' == PruneDeposits(b, gone)
  {
    hide Keep;
    var p := PruneDeposits(b, gone);
    forall id ensures Standing(p, id) == Standing(b', id) { PrunedStanding(b, gone, id); }
    assert b'.deposits == p.deposits by {
      forall id ensures id in b'.deposits <==> id in p.deposits { assert Standing(p, id) == Standing(b', id); }
      forall id | id in b'.deposits ensures b'.deposits[id] == p.deposits[id] { assert Standing(p, id) == Standing(b', id); }
    }
    forall id | id in b.rows ensures b'.rows[id] == p.rows[id] {
      assert Touched(gone, id) <==> id in Ids(gone);
    }
  }

  /** A deposit of `standing` fell due by `t` as `d`. */
  ghost predicate IsDue(standing: seq<DepositRow>, t: Time, d: Due) {
    exists i :: 0 <= i < |standing| && standing[i].pruneAfter <= t && d == DueOf(standing[i])
  }

  lemma IsDueStep(standing: seq<DepositRow>, i: nat, t: Time)
    requires i < |standing|
    ensures forall d :: IsDue(standing[..i + 1], t, d) <==>
              IsDue(standing[..i], t, d) || (standing[i].pruneAfter <= t && d == DueOf(standing[i]))
  {
    forall d ensures IsDue(standing[..i + 1], t, d) <==>
               IsDue(standing[..i], t, d) || (standing[i].pruneAfter <= t && d == DueOf(standing[i]))
    {
      if IsDue(standing[..i], t, d) {
        var k :| 0 <= k < i && standing[..i][k].pruneAfter <= t && d == DueOf(standing[..i][k]);
        assert standing[..i + 1][k] == standing[..i][k];
      }
      if standing[i].pruneAfter <= t && d == DueOf(standing[i]) { assert standing[..i + 1][i] == standing[i]; }
    }
  }

  method FilterAfter(standing: seq<DepositRow>, through: nat) returns (r: seq<DepositRow>)
    ensures r == After(standing, through)
  {
    r := [];
    for i := 0 to |standing|
      invariant r == After(standing[..i], through)
    {
      assert standing[..i + 1][..i] == standing[..i];
      if through < standing[i].depositId { r := r + [standing[i]]; }
    }
    assert standing[..|standing|] == standing;
  }

  /** The first deposit standing with this hash. */
  method Search(standing: seq<DepositRow>, hash: Bytes) returns (i: nat)
    ensures i == FindHash(standing, hash, 0)
  {
    i := 0;
    while i < |standing| && standing[i].hash != hash
      invariant i <= |standing| && FindHash(standing, hash, 0) == FindHash(standing, hash, i)
    {
      i := i + 1;
    }
  }
}
