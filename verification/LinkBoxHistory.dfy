/**
 What the link boxes answer, from what they have answered before: each life of a box is the
 registration that began it, the deposits it was answered to have taken, and which of those a Collect
 has acknowledged, a Retire discarded or a sweep pruned. Every answer of every arm follows from that.
 */
module LinkBoxHistory {
  import opened Common
  import opened Records
  import opened LinkBoxes
  import opened LinkBoxRuns

  /** A deposit as it was handed in. */
  datatype Taken = Taken(ct: Bytes, hash: Bytes, at: Time)

  /** `accepted` are the deposits answered OK and not as replays, in order; deposit `n` is the `n`th of them. */
  datatype Life = Life(
    registration: Registration, began: Time, until: Time, retired: bool, accepted: seq<Taken>, gone: set<nat>, refused: nat)

  type Past = map<BoxId, Life>

  function UpTo(n: nat): (ids: set<nat>)
    ensures forall i: nat :: i in ids <==> 1 <= i <= n
  {
    if n == 0 then {} else UpTo(n - 1) + {n}
  }

  // ---- the past an answer makes ----

  function Noted(past: Past, op: Op, answer: Answer, now: Time): Past {
    match (op, answer)
    case (Register(id, registration, ttl, _), Registered(reason, _, _)) =>
      if reason == ReasonOk && id !in past then
        past[id := Life(registration, LinkBoxTime(now), LinkBoxTime(LinkBoxTime(now) + ttl), false, [], {}, 0)]
      else past
    case (Deposit(id, _, ct, hash), Deposited(reason, _, _, _, replayed)) =>
      if id !in past then past
      else if reason == ReasonOk && !replayed then
        past[id := past[id].(accepted := past[id].accepted + [Taken(ct, hash, LinkBoxTime(now))])]
      else if reason == ReasonCardRateLimited then past[id := past[id].(refused := past[id].refused + 1)]
      else past
    case (Collect(id, _, _, ackThrough, _), Collected(reason, _, _, _, _, _)) =>
      if id in past && reason == ReasonOk then past[id := Acknowledged(past[id], ackThrough)] else past
    case (Retire(id, _), Retired(reason, _)) =>
      if id in past && reason == ReasonOk then past[id := Discarded(past[id])] else past
    case _ => past
  }

  /** Every deposit taken so far up to the mark is acknowledged, and the refusals are told. */
  function Acknowledged(life: Life, through: nat): Life {
    life.(gone := life.gone + UpTo(if through < |life.accepted| then through else |life.accepted|), refused := 0)
  }

  function Discarded(life: Life): Life {
    life.(retired := true, gone := life.gone + UpTo(|life.accepted|))
  }

  /** What a sweep takes of one box. */
  ghost function PrunedOf(pruned: set<Due>, id: BoxId): set<nat> {
    set d | d in pruned && d.box == id :: d.deposit
  }

  ghost function NotedSweep(past: Past, pruned: set<Due>, reclaimed: set<Due>): Past {
    map id | id in past && id !in Ids(reclaimed) :: past[id].(gone := past[id].gone + PrunedOf(pruned, id))
  }

  // ---- what the past says an arm must answer ----

  predicate LiveLife(life: Life, t: Time) {
    !life.retired && t < life.until
  }

  predicate Waits(life: Life, n: nat) {
    1 <= n <= |life.accepted| && n !in life.gone
  }

  function Waiting(life: Life): set<nat> {
    set n | 1 <= n <= |life.accepted| && n !in life.gone
  }

  ghost function LiveLives(past: Past, t: Time): set<BoxId> {
    set id | id in past && LiveLife(past[id], t)
  }

  /** One deposit as a Collect hands it over: the one taken under that id, as it was handed in. */
  predicate HandedOver(life: Life, d: DepositRow) {
    && 1 <= d.depositId <= |life.accepted|
    && d.ct == life.accepted[d.depositId - 1].ct && d.hash == life.accepted[d.depositId - 1].hash
    && d.createTime == life.accepted[d.depositId - 1].at
  }

  predicate Owed(life: Life, since: nat, ackThrough: nat, n: nat) {
    Waits(life, n) && since < n && ackThrough < n
  }

  ghost predicate Among(deposits: seq<DepositRow>, n: nat) {
    exists i :: 0 <= i < |deposits| && deposits[i].depositId == n
  }

  /** Exactly those waiting past both marks, in id order, as handed in, up to the limit, and complete when none was left over. */
  ghost predicate HandsOver(life: Life, since: nat, ackThrough: nat, limit: nat, deposits: seq<DepositRow>, complete: bool) {
    && (forall i, j :: 0 <= i < j < |deposits| ==> deposits[i].depositId < deposits[j].depositId)
    && (forall i :: 0 <= i < |deposits| ==> HandedOver(life, deposits[i]) && Owed(life, since, ackThrough, deposits[i].depositId))
    && (forall n: nat :: Owed(life, since, ackThrough, n) ==>
          Among(deposits, n) || (!complete && forall i :: 0 <= i < |deposits| ==> deposits[i].depositId < n))
    && (complete <==> forall n: nat :: Owed(life, since, ackThrough, n) ==> Among(deposits, n))
    && (limit != 0 ==> |deposits| <= limit) && (!complete ==> limit != 0 && |deposits| == limit)
  }

  /** A waiting deposit with this hash. */
  ghost predicate Holds(life: Life, n: nat, hash: Bytes) {
    Waits(life, n) && life.accepted[n - 1].hash == hash
  }

  ghost predicate AnswersDeposit(life: Life, hash: Bytes, answer: Answer) {
    && answer.Deposited?
    && if exists n: nat :: Holds(life, n, hash) then
         answer.reason == ReasonOk && answer.replayed && Holds(life, answer.depositId, hash) && answer.hash == hash
         && answer.pending == |Waiting(life)|
       else if 2 <= |life.accepted| then answer == Deposited(ReasonCardRateLimited, 0, [], 0, false)
       else answer == Deposited(ReasonOk, |life.accepted| + 1, hash, |Waiting(life)| + 1, false)
  }

  ghost predicate AnswersCollect(life: Life, since: nat, ackThrough: nat, limit: nat, answer: Answer) {
    && answer.Collected? && answer.reason == ReasonOk
    && HandsOver(life, since, ackThrough, limit, answer.deposits, answer.complete)
    && answer.pending == |Waiting(life) - UpTo(ackThrough)|
    && answer.refused == life.refused && answer.expireTime == life.until
  }

  /** Whether a write is verified under the key its box was registered with. */
  predicate Keyed(life: Life, op: Op)
    requires op.Deposit? || op.Collect? || op.Retire?
  {
    op.verifiedPub == if op.Deposit? then life.registration.depositPub else life.registration.collectPub
  }

  /** The whole answer of one arm. */
  ghost predicate Answers(past: Past, op: Op, now: Time, answer: Answer) {
    var t := LinkBoxTime(now);
    match op
    case Register(id, registration, ttl, liveCap) =>
      answer == (if id in past then
                   if LiveLife(past[id], t) && past[id].registration == registration
                   then Registered(ReasonOk, past[id].until, |Waiting(past[id])|)
                   else Registered(ReasonRejected, 0, 0)
                 else if liveCap <= |LiveLives(past, t)| then Registered(ReasonCardRateLimited, 0, 0)
                 else Registered(ReasonOk, LinkBoxTime(t + ttl), 0))
    case Open(id) =>
      answer == (if id in past && LiveLife(past[id], t)
                 then Opened(ReasonOk, past[id].registration.depositPub, past[id].registration.collectPub, past[id].registration.publicCt)
                 else Opened(ReasonCardRetired, [], [], []))
    case Deposit(id, _, _, hash) =>
      if id in past && LiveLife(past[id], t) && Keyed(past[id], op) then AnswersDeposit(past[id], hash, answer)
      else answer == Deposited(ReasonCardRetired, 0, [], 0, false)
    case Collect(id, _, since, ackThrough, limit) =>
      if id in past && LiveLife(past[id], t) && Keyed(past[id], op) then AnswersCollect(past[id], since, ackThrough, limit, answer)
      else answer == Collected(ReasonCardRetired, [], 0, 0, 0, false)
    case Retire(id, _) =>
      answer == (if id in past && LiveLife(past[id], t) && Keyed(past[id], op) then Retired(ReasonOk, |Waiting(past[id])|)
                 else Retired(ReasonCardRetired, 0))
    case CountLive => answer == Counted(|LiveLives(past, t)|)
  }

  // ---- the rows say what the past says ----

  predicate RowTells(row: BoxRow, life: Life) {
    && row.depositPub == life.registration.depositPub && row.collectPub == life.registration.collectPub
    && row.publicCt == life.registration.publicCt
    && row.registerTime == life.began && row.expireTime == life.until && (row.retiredTime.Some? <==> life.retired)
    && row.nextDepositId == |life.accepted| + 1 && row.refusedCount == life.refused
    && (forall n :: n in life.gone ==> n <= |life.accepted|)
  }

  /** The deposits standing are those that wait. */
  ghost predicate StandingTells(standing: seq<DepositRow>, life: Life) {
    && (forall i :: 0 <= i < |standing| ==> HandedOver(life, standing[i]) && Waits(life, standing[i].depositId))
    && (forall n: nat :: Waits(life, n) ==> Among(standing, n))
  }

  ghost predicate Tells(b: Boxes, past: Past) {
    && past.Keys == b.rows.Keys
    && (forall id :: id in b.rows ==> RowTells(b.rows[id], past[id]) && StandingTells(Standing(b, id), past[id]))
  }

  ghost predicate Increasing(standing: seq<DepositRow>) {
    forall i, j :: 0 <= i < j < |standing| ==> standing[i].depositId < standing[j].depositId
  }

  /** As many stand as wait. */
  lemma {:induction false} IdsCounted(standing: seq<DepositRow>, ids: set<nat>)
    requires Increasing(standing) && forall n: nat :: n in ids <==> Among(standing, n)
    ensures |ids| == |standing|
  {
    if |standing| == 0 {
      assert ids == {};
    } else {
      var n := |standing| - 1;
      var last, rest := standing[n].depositId, standing[..n];
      assert Among(standing, last);
      forall k: nat ensures k in ids - {last} <==> Among(rest, k) {
        if Among(rest, k) {
          var i :| 0 <= i < n && rest[i].depositId == k;
          assert standing[i].depositId == k;
        }
        if k in ids - {last} {
          var i :| 0 <= i < |standing| && standing[i].depositId == k;
          assert rest[i].depositId == k;
        }
      }
      IdsCounted(rest, ids - {last});
    }
  }

  lemma StandingCounted(standing: seq<DepositRow>, life: Life)
    requires Increasing(standing) && StandingTells(standing, life)
    ensures |standing| == |Waiting(life)|
  {
    forall n: nat ensures n in Waiting(life) <==> Among(standing, n) { assert n in Waiting(life) <==> Waits(life, n); }
    IdsCounted(standing, Waiting(life));
  }

  lemma OrderedIncreases(b: Boxes, id: BoxId)
    requires BoxesInv(b) && id in b.rows
    ensures Increasing(Standing(b, id)) && b.rows[id].depositCount == |Standing(b, id)|
  {
    SoundAt(b, id);
  }

  lemma SameLive(b: Boxes, past: Past, t: Time)
    requires Tells(b, past)
    ensures LiveIds(b, t) == LiveLives(past, t)
    ensures forall id :: id in b.rows ==> (Live(b.rows[id], t) <==> LiveLife(past[id], t))
  {
    hide StandingTells;
  }

  // ---- Collect ----

  lemma {:induction false} AfterIncreases(standing: seq<DepositRow>, through: nat)
    requires Increasing(standing)
    ensures Increasing(After(standing, through))
  {
    if |standing| != 0 {
      var n := |standing| - 1;
      AfterIncreases(standing[..n], through);
      AfterMembers(standing[..n], through);
      var rest := After(standing[..n], through);
      forall i | 0 <= i < |rest| ensures rest[i].depositId < standing[n].depositId { assert rest[i] in standing[..n]; }
    }
  }

  /** What is past a mark, of what waits. */
  lemma AfterIsAmong(standing: seq<DepositRow>, through: nat, n: nat)
    ensures Among(After(standing, through), n) <==> Among(standing, n) && through < n
  {
    hide After;
    AfterMembers(standing, through);
    var after := After(standing, through);
    if i :| 0 <= i < |after| && after[i].depositId == n {
      assert after[i] in standing;
    }
    if i :| 0 <= i < |standing| && standing[i].depositId == n {
      if through < n { assert standing[i] in after; }
    }
  }

  ghost predicate AllHandedOver(deposits: seq<DepositRow>, life: Life) {
    forall i :: 0 <= i < |deposits| ==> HandedOver(life, deposits[i])
  }

  lemma AfterHandsOver(standing: seq<DepositRow>, through: nat, life: Life)
    requires AllHandedOver(standing, life)
    ensures AllHandedOver(After(standing, through), life)
  {
    hide After, HandedOver;
    AfterMembers(standing, through);
    var after := After(standing, through);
    forall i | 0 <= i < |after| ensures HandedOver(life, after[i]) { assert after[i] in standing; }
  }

  /** Two marks in turn, and the limit. */
  lemma CollectHandsOver(standing: seq<DepositRow>, life: Life, since: nat, ackThrough: nat, limit: nat)
    requires Increasing(standing) && StandingTells(standing, life)
    ensures var after := After(After(standing, ackThrough), since);
            var cut := limit != 0 && limit < |after|;
            HandsOver(life, since, ackThrough, limit, if cut then after[..limit] else after, !cut)
  {
    hide After, HandedOver;
    var kept := After(standing, ackThrough);
    var after := After(kept, since);
    AfterIncreases(standing, ackThrough);
    AfterIncreases(kept, since);
    AfterHandsOver(standing, ackThrough, life);
    AfterHandsOver(kept, since, life);
    forall n: nat ensures Among(after, n) <==> Owed(life, since, ackThrough, n) {
      AfterIsAmong(standing, ackThrough, n);
      AfterIsAmong(kept, since, n);
      if Among(standing, n) { var i :| 0 <= i < |standing| && standing[i].depositId == n; }
    }
    hide StandingTells, Owed;
    CutHandsOver(after, life, since, ackThrough, limit);
  }

  lemma CutHandsOver(after: seq<DepositRow>, life: Life, since: nat, ackThrough: nat, limit: nat)
    requires Increasing(after) && AllHandedOver(after, life)
    requires forall n: nat :: Among(after, n) <==> Owed(life, since, ackThrough, n)
    ensures var cut := limit != 0 && limit < |after|;
            HandsOver(life, since, ackThrough, limit, if cut then after[..limit] else after, !cut)
  {
    hide HandedOver, Owed;
    var cut := limit != 0 && limit < |after|;
    var deposits := if cut then after[..limit] else after;
    forall i | 0 <= i < |deposits| ensures HandedOver(life, deposits[i]) && Owed(life, since, ackThrough, deposits[i].depositId) {
      assert deposits[i] == after[i] && Among(after, after[i].depositId);
    }
    forall n: nat | Owed(life, since, ackThrough, n)
      ensures Among(deposits, n) || (cut && forall i :: 0 <= i < |deposits| ==> deposits[i].depositId < n)
    {
      assert Among(after, n);
      var i :| 0 <= i < |after| && after[i].depositId == n;
      if i < |deposits| { assert deposits[i].depositId == n; }
    }
    if cut {
      assert Among(after, after[limit].depositId) && !Among(deposits, after[limit].depositId);
    }
  }

  // ---- every answer ----

  lemma FoundHash(standing: seq<DepositRow>, hash: Bytes, next: nat)
    requires next <= |standing|
    ensures var i := FindHash(standing, hash, next);
            && (i < |standing| ==> standing[i].hash == hash)
            && (i == |standing| ==> forall k :: next <= k < |standing| ==> standing[k].hash != hash)
  {
  }

  lemma DepositAnswered(b: Boxes, life: Life, id: BoxId, ct: Bytes, hash: Bytes, t: Time)
    requires id in b.rows && RowTells(b.rows[id], life) && StandingTells(Standing(b, id), life)
    requires Increasing(Standing(b, id)) && b.rows[id].depositCount == |Standing(b, id)|
    ensures AnswersDeposit(life, hash, TakeDeposit(b, id, ct, hash, t).1)
  {
    hide FindHash;
    var standing := Standing(b, id);
    StandingCounted(standing, life);
    FoundHash(standing, hash, 0);
    var i := FindHash(standing, hash, 0);
    if i < |standing| { assert Holds(life, standing[i].depositId, hash); }
    if n: nat :| Holds(life, n, hash) {
      var k :| 0 <= k < |standing| && standing[k].depositId == n;
      assert standing[k].hash == hash;
    }
  }

  lemma CollectAnswered(b: Boxes, life: Life, op: Op, now: Time)
    requires op.Collect? && op.id in b.rows && Live(b.rows[op.id], LinkBoxTime(now)) && op.verifiedPub == b.rows[op.id].collectPub
    requires RowTells(b.rows[op.id], life) && StandingTells(Standing(b, op.id), life) && Increasing(Standing(b, op.id))
    ensures AnswersCollect(life, op.since, op.ackThrough, op.limit,
                           CollectStep(b, op.id, op.verifiedPub, op.since, op.ackThrough, op.limit, now).1)
  {
    hide LinkBoxTime, HandsOver;
    var standing := Standing(b, op.id);
    CollectHandsOver(standing, life, op.since, op.ackThrough, op.limit);
    var kept := After(standing, op.ackThrough);
    AfterIncreases(standing, op.ackThrough);
    hide After;
    forall n: nat ensures n in Waiting(life) - UpTo(op.ackThrough) <==> Among(kept, n) {
      AfterIsAmong(standing, op.ackThrough, n);
      assert n in Waiting(life) <==> Waits(life, n);
      if Among(standing, n) { var i :| 0 <= i < |standing| && standing[i].depositId == n; }
    }
    IdsCounted(kept, Waiting(life) - UpTo(op.ackThrough));
  }

  /** Every arm that is well shaped is answered as the past says it must be, and no other arm reads anything. */
  lemma ArmAnswers(b: Boxes, past: Past, op: Op, now: Time)
    requires BoxesInv(b) && Tells(b, past)
    ensures ShapeError(op).None? ==> Answers(past, op, now, Step(b, op, now).1)
    ensures ShapeError(op).Some? ==> Step(b, op, now) == (b, BadShape(ShapeError(op).value))
  {
    hide BoxesInv, LinkBoxTime, ShapeError, AnswersDeposit, AnswersCollect, StandingTells, TakeDeposit, LiveIds, LiveLives;
    var t := LinkBoxTime(now);
    SameLive(b, past, t);
    if !op.CountLive? && op.id in b.rows {
      OrderedIncreases(b, op.id);
      StandingCounted(Standing(b, op.id), past[op.id]);
      match op
      case Deposit(id, _, ct, hash) => DepositAnswered(b, past[id], id, ct, hash, t);
      case Collect(id, verifiedPub, _, _, _) =>
        if Live(b.rows[id], t) && verifiedPub == b.rows[id].collectPub { CollectAnswered(b, past[id], op, now); }
      case _ =>
    }
  }

  // ---- and every arm and sweep leaves rows that tell the new past ----

  lemma DepositTells(b: Boxes, life: Life, id: BoxId, ct: Bytes, hash: Bytes, t: Time)
    requires id in b.rows && RowTells(b.rows[id], life) && StandingTells(Standing(b, id), life)
    ensures var (b', answer) := TakeDeposit(b, id, ct, hash, t);
            var life' := if answer.Deposited? && answer.reason == ReasonOk && !answer.replayed
                         then life.(accepted := life.accepted + [Taken(ct, hash, t)])
                         else if answer.Deposited? && answer.reason == ReasonCardRateLimited then life.(refused := life.refused + 1) else life;
            id in b'.rows && RowTells(b'.rows[id], life') && StandingTells(Standing(b', id), life')
  {
    hide FindHash;
    var (b', answer) := TakeDeposit(b, id, ct, hash, t);
    var standing := Standing(b, id);
    if answer.reason == ReasonOk && !answer.replayed {
      StandingGrows(standing, life, Taken(ct, hash, t), Standing(b', id)[|standing|]);
    }
  }

  lemma StandingGrows(standing: seq<DepositRow>, life: Life, taken: Taken, d: DepositRow)
    requires StandingTells(standing, life) && d.depositId == |life.accepted| + 1
    requires d.ct == taken.ct && d.hash == taken.hash && d.createTime == taken.at && d.depositId !in life.gone
    ensures StandingTells(standing + [d], life.(accepted := life.accepted + [taken]))
  {
    var life', standing' := life.(accepted := life.accepted + [taken]), standing + [d];
    forall i | 0 <= i < |standing'| ensures HandedOver(life', standing'[i]) && Waits(life', standing'[i].depositId) {
      if i < |standing| { assert HandedOver(life, standing[i]) && Waits(life, standing[i].depositId); }
    }
    forall n: nat | Waits(life', n) ensures Among(standing', n) {
      if n <= |life.accepted| {
        assert Waits(life, n) && Among(standing, n);
        var i :| 0 <= i < |standing| && standing[i].depositId == n;
        assert standing'[i].depositId == n;
      } else {
        assert standing'[|standing|].depositId == n;
      }
    }
  }

  lemma StandingShrinks(standing: seq<DepositRow>, life: Life, left: seq<DepositRow>, gone: set<nat>, life': Life)
    requires life'.accepted == life.accepted && life'.gone == life.gone + gone
    requires StandingTells(standing, life) && (forall d :: d in left ==> d in standing && d.depositId !in gone)
    requires forall n: nat :: Among(left, n) <==> Among(standing, n) && n !in gone
    ensures StandingTells(left, life')
  {
    hide Among;
    forall i | 0 <= i < |left| ensures HandedOver(life', left[i]) && Waits(life', left[i].depositId) {
      var d := left[i];
      assert d in left && d in standing;
      var k :| 0 <= k < |standing| && standing[k] == d;
      assert HandedOver(life, standing[k]) && Waits(life, standing[k].depositId);
    }
    forall n: nat | Waits(life', n) ensures Among(left, n) { assert Waits(life, n); }
  }

  lemma CollectTells(standing: seq<DepositRow>, life: Life, ackThrough: nat)
    requires StandingTells(standing, life) && forall i :: 0 <= i < |standing| ==> 1 <= standing[i].depositId
    ensures StandingTells(After(standing, ackThrough), Acknowledged(life, ackThrough))
  {
    hide After;
    AfterMembers(standing, ackThrough);
    var gone := UpTo(if ackThrough < |life.accepted| then ackThrough else |life.accepted|);
    forall n: nat ensures Among(After(standing, ackThrough), n) <==> Among(standing, n) && n !in gone {
      AfterIsAmong(standing, ackThrough, n);
      if i :| 0 <= i < |standing| && standing[i].depositId == n { assert Waits(life, standing[i].depositId); }
    }
    forall d | d in After(standing, ackThrough) ensures d in standing && d.depositId !in gone {}
    StandingShrinks(standing, life, After(standing, ackThrough), gone, Acknowledged(life, ackThrough));
  }

  lemma ArmTells(b: Boxes, past: Past, op: Op, now: Time)
    requires BoxesInv(b) && Tells(b, past)
    ensures var (b', answer) := Step(b, op, now); Tells(b', Noted(past, op, answer, now))
  {
    if !op.CountLive? { NamingArmTells(b, past, op, now); }
  }

  lemma NamingArmTells(b: Boxes, past: Past, op: Op, now: Time)
    requires BoxesInv(b) && Tells(b, past) && !op.CountLive?
    ensures var (b', answer) := Step(b, op, now); Tells(b', Noted(past, op, answer, now))
  {
    hide Step, Noted, BoxesInv, RowTells, StandingTells;
    var (b', answer) := Step(b, op, now);
    var past' := Noted(past, op, answer, now);
    NamedBoxTells(b, past, op, now);
    ElsewhereKept(b, past, op, now);
    forall id | id in b'.rows ensures id in past' && RowTells(b'.rows[id], past'[id]) && StandingTells(Standing(b', id), past'[id]) {
      if id != op.id { assert Standing(b', id) == Standing(b, id); }
    }
    assert past'.Keys == b'.rows.Keys;
  }

  lemma ElsewhereKept(b: Boxes, past: Past, op: Op, now: Time)
    requires !op.CountLive?
    ensures var (b', answer) := Step(b, op, now);
            && SameElsewhere(b, b', op.id)
            && (forall id :: id != op.id ==>
                  (id in Noted(past, op, answer, now) <==> id in past) && (id in past ==> Noted(past, op, answer, now)[id] == past[id]))
  {
    hide LinkBoxTime, FindHash, After, LiveIds;
  }

  lemma NamedBoxTells(b: Boxes, past: Past, op: Op, now: Time)
    requires BoxesInv(b) && Tells(b, past) && !op.CountLive?
    ensures var (b', answer) := Step(b, op, now); BoxTells(b', Noted(past, op, answer, now), op.id)
  {
    hide Step, Noted, BoxesInv, RowTells, StandingTells;
    match op
    case Register(_, _, _, _) => RegisterArmTells(b, past, op, now);
    case Open(_) => OpenArmTells(b, past, op, now);
    case Deposit(_, _, _, _) => DepositArmTells(b, past, op, now);
    case Collect(_, _, _, _, _) => CollectArmTells(b, past, op, now);
    case Retire(_, _) => RetireArmTells(b, past, op, now);
  }

  ghost predicate BoxTells(b: Boxes, past: Past, id: BoxId) {
    && (id in b.rows <==> id in past)
    && (id in b.rows && id in past ==> RowTells(b.rows[id], past[id]) && StandingTells(Standing(b, id), past[id]))
  }

  lemma RegisterArmTells(b: Boxes, past: Past, op: Op, now: Time)
    requires BoxesInv(b) && Tells(b, past) && op.Register?
    ensures var (b', answer) := Step(b, op, now); BoxTells(b', Noted(past, op, answer, now), op.id)
  {
    hide LinkBoxTime, LiveIds, BoxesInv, StandingTells, ShapeError;
    var (b', answer) := Step(b, op, now);
    if op.id !in b.rows {
      NoRowNoDeposit(b, op.id);
      if op.id in b'.rows { NothingWaits(Noted(past, op, answer, now)[op.id]); }
    }
  }

  lemma OpenArmTells(b: Boxes, past: Past, op: Op, now: Time)
    requires Tells(b, past) && op.Open?
    ensures var (b', answer) := Step(b, op, now); BoxTells(b', Noted(past, op, answer, now), op.id)
  {
    hide LinkBoxTime, StandingTells;
  }

  lemma DepositArmTells(b: Boxes, past: Past, op: Op, now: Time)
    requires Tells(b, past) && op.Deposit?
    ensures var (b', answer) := Step(b, op, now); BoxTells(b', Noted(past, op, answer, now), op.id)
  {
    hide LinkBoxTime, TakeDeposit, StandingTells, ShapeError;
    if op.id in b.rows { DepositTells(b, past[op.id], op.id, op.ct, op.hash, LinkBoxTime(now)); }
  }

  lemma CollectArmTells(b: Boxes, past: Past, op: Op, now: Time)
    requires BoxesInv(b) && Tells(b, past) && op.Collect?
    ensures var (b', answer) := Step(b, op, now); BoxTells(b', Noted(past, op, answer, now), op.id)
  {
    hide LinkBoxTime, After, BoxesInv, StandingTells, ShapeError;
    if op.id in b.rows {
      StandingIds(b, op.id);
      CollectTells(Standing(b, op.id), past[op.id], op.ackThrough);
    }
  }

  lemma RetireArmTells(b: Boxes, past: Past, op: Op, now: Time)
    requires Tells(b, past) && op.Retire?
    ensures var (b', answer) := Step(b, op, now); BoxTells(b', Noted(past, op, answer, now), op.id)
  {
    hide LinkBoxTime, StandingTells, ShapeError;
    if op.id in b.rows { RetireTells(past[op.id]); }
  }

  lemma StandingIds(b: Boxes, id: BoxId)
    requires BoxesInv(b) && id in b.rows
    ensures forall i :: 0 <= i < |Standing(b, id)| ==> 1 <= Standing(b, id)[i].depositId
  {
    SoundAt(b, id);
  }

  lemma RetireTells(life: Life)
    ensures StandingTells([], Discarded(life))
  {
  }

  lemma NothingWaits(life: Life)
    requires life.accepted == []
    ensures StandingTells([], life)
  {
  }

  // ---- sweeps ----

  lemma KeptAreAmong(standing: seq<DepositRow>, gone: set<Due>, ids: set<nat>, n: nat)
    requires Increasing(standing) && forall i :: 0 <= i < |standing| ==> (DueOf(standing[i]) in gone <==> standing[i].depositId in ids)
    ensures Among(Keep(standing, gone), n) <==> Among(standing, n) && n !in ids
  {
    hide Increasing;
    var kept := Keep(standing, gone);
    if i :| 0 <= i < |kept| && kept[i].depositId == n {
      assert kept[i] in standing && DueOf(kept[i]) !in gone;
    }
    if i :| 0 <= i < |standing| && standing[i].depositId == n {
      if n !in ids { assert standing[i] in kept; }
    }
  }

  lemma PrunedAreThese(b: Boxes, t: Time, pruned: set<Due>, id: BoxId)
    requires BoxesInv(b) && pruned <= DueDeposits(b, t) && id in b.rows
    ensures forall i :: 0 <= i < |Standing(b, id)| ==> (DueOf(Standing(b, id)[i]) in pruned <==> Standing(b, id)[i].depositId in PrunedOf(pruned, id))
    ensures forall n :: n in PrunedOf(pruned, id) ==> n < b.rows[id].nextDepositId
  {
    var standing := Standing(b, id);
    SoundAt(b, id);
    forall d | d in pruned && d.box == id ensures exists i :: 0 <= i < |standing| && d == DueOf(standing[i]) {
      var o, i :| o in b.deposits && 0 <= i < |b.deposits[o]| && b.deposits[o][i].pruneAfter <= t && d == DueOf(b.deposits[o][i]);
      SoundAt(b, o);
      assert Standing(b, o)[i].box == o;
    }
    hide BoxesInv;
    forall i | 0 <= i < |standing| ensures DueOf(standing[i]) in pruned <==> standing[i].depositId in PrunedOf(pruned, id) {
      assert standing[i].box == id;
      if d :| d in pruned && d.box == id && d.deposit == standing[i].depositId {
        var k :| 0 <= k < |standing| && d == DueOf(standing[k]);
        assert standing[k].pruneAfter == standing[i].pruneAfter;
      }
    }
  }

  lemma SweptBoxTells(b: Boxes, life: Life, now: Time, bounds: Bounds, pruned: set<Due>, reclaimed: set<Due>, id: BoxId)
    requires BoxesInv(b) && SweepChooses(b, now, bounds, pruned, reclaimed) && id in b.rows && id in Swept(b, pruned, reclaimed).rows
    requires RowTells(b.rows[id], life) && StandingTells(Standing(b, id), life)
    ensures var b', life' := Swept(b, pruned, reclaimed), life.(gone := life.gone + PrunedOf(pruned, id));
            RowTells(b'.rows[id], life') && StandingTells(Standing(b', id), life')
  {
    hide BoxesInv, Keep, Touched, LinkBoxTime, DueDeposits, DueBoxes, StandingTells, PrunedOf;
    var standing := Standing(b, id);
    OrderedIncreases(b, id);
    PrunedStanding(b, pruned, id);
    PrunedAreThese(b, LinkBoxTime(now), pruned, id);
    forall n: nat ensures Among(Keep(standing, pruned), n) <==> Among(standing, n) && n !in PrunedOf(pruned, id) {
      KeptAreAmong(standing, pruned, PrunedOf(pruned, id), n);
    }
    KeptAreNotPruned(standing, pruned, PrunedOf(pruned, id));
    StandingShrinks(standing, life, Keep(standing, pruned), PrunedOf(pruned, id), life.(gone := life.gone + PrunedOf(pruned, id)));
    SweptStanding(b, pruned, reclaimed, id);
  }

  lemma KeptAreNotPruned(standing: seq<DepositRow>, gone: set<Due>, ids: set<nat>)
    requires forall i :: 0 <= i < |standing| ==> (DueOf(standing[i]) in gone <==> standing[i].depositId in ids)
    ensures forall d :: d in Keep(standing, gone) ==> d in standing && d.depositId !in ids
  {
  }

  lemma SweptStanding(b: Boxes, pruned: set<Due>, reclaimed: set<Due>, id: BoxId)
    requires id in b.rows && id in Swept(b, pruned, reclaimed).rows
    ensures Standing(Swept(b, pruned, reclaimed), id) == Keep(Standing(b, id), pruned)
    ensures var row := Swept(b, pruned, reclaimed).rows[id]; row == b.rows[id].(depositCount := row.depositCount)
  {
    hide Keep, Touched;
    PrunedStanding(b, pruned, id);
  }

  lemma SweepTells(b: Boxes, past: Past, now: Time, bounds: Bounds, pruned: set<Due>, reclaimed: set<Due>)
    requires BoxesInv(b) && Tells(b, past) && SweepChooses(b, now, bounds, pruned, reclaimed)
    ensures Tells(Swept(b, pruned, reclaimed), NotedSweep(past, pruned, reclaimed))
  {
    hide BoxesInv, RowTells, StandingTells, SweepChooses, Keep, Touched;
    var b', past' := Swept(b, pruned, reclaimed), NotedSweep(past, pruned, reclaimed);
    assert past'.Keys == b'.rows.Keys;
    forall id | id in b'.rows ensures RowTells(b'.rows[id], past'[id]) && StandingTells(Standing(b', id), past'[id]) {
      SweptBoxTells(b, past[id], now, bounds, pruned, reclaimed, id);
    }
  }

  // ---- every run ----

  /** A run with its past. */
  ghost function Run(b: Boxes, past: Past, events: seq<Event>): (Boxes, Past)
    decreases |events|
  {
    if |events| == 0 then (b, past)
    else
      match events[0]
      case Arm(op, now) => Run(Step(b, op, now).0, Noted(past, op, Step(b, op, now).1, now), events[1..])
      case SweepBatch(_, _, pruned, reclaimed) => Run(Swept(b, pruned, reclaimed), NotedSweep(past, pruned, reclaimed), events[1..])
  }

  lemma {:induction false} RunTells(b: Boxes, past: Past, events: seq<Event>)
    requires BoxesInv(b) && Tells(b, past) && Legal(b, events)
    ensures var (b', past') := Run(b, past, events); BoxesInv(b') && Tells(b', past')
    decreases |events|
  {
    hide BoxesInv, Tells, Step, Noted, NotedSweep, Swept, SweepChooses;
    if |events| != 0 {
      match events[0]
      case Arm(op, now) =>
        StepKeepsInv(b, op, now);
        ArmTells(b, past, op, now);
        RunTells(Step(b, op, now).0, Noted(past, op, Step(b, op, now).1, now), events[1..]);
      case SweepBatch(now, bounds, pruned, reclaimed) =>
        SweepKeepsInv(b, pruned, reclaimed);
        SweepTells(b, past, now, bounds, pruned, reclaimed);
        RunTells(Swept(b, pruned, reclaimed), NotedSweep(past, pruned, reclaimed), events[1..]);
    }
  }

  /**
   In every run, from no boxes, with sweeps anywhere: each arm is answered from what was answered and
   swept before. A Register by the same registration finds its box, an Open its keys, a Deposit its
   replay, its refusal or its next id, and a Collect every deposit taken and not acknowledged,
   discarded or swept, in order, as it was handed in.
   */
  lemma EveryAnswerFollows(events: seq<Event>, op: Op, now: Time)
    requires Legal(Boxes(map[], map[]), events) && ShapeError(op).None?
    ensures var (b, past) := Run(Boxes(map[], map[]), map[], events); Answers(past, op, now, Step(b, op, now).1)
  {
    hide Answers, Legal, ShapeError;
    RunTells(Boxes(map[], map[]), map[], events);
    var (b, past) := Run(Boxes(map[], map[]), map[], events);
    ArmAnswers(b, past, op, now);
  }

  /** So a Collect from the start gives back every deposit that was taken and has not gone, as it was handed in. */
  lemma DepositsComeBack(events: seq<Event>, id: BoxId, verifiedPub: Bytes, now: Time, n: nat) returns (i: nat)
    requires Legal(Boxes(map[], map[]), events) && |verifiedPub| == 32
    requires var past := Run(Boxes(map[], map[]), map[], events).1;
             && id in past && LiveLife(past[id], LinkBoxTime(now)) && past[id].registration.collectPub == verifiedPub && Waits(past[id], n)
    ensures var (b, past) := Run(Boxes(map[], map[]), map[], events);
            var answer := Step(b, Collect(id, verifiedPub, 0, 0, 0), now).1;
            && answer.Collected? && answer.reason == ReasonOk && answer.complete && i < |answer.deposits|
            && answer.deposits[i].depositId == n && answer.deposits[i].ct == past[id].accepted[n - 1].ct
  {
    hide Run, Legal, Step, LinkBoxTime;
    var op := Collect(id, verifiedPub, 0, 0, 0);
    EveryAnswerFollows(events, op, now);
    var (b, past) := Run(Boxes(map[], map[]), map[], events);
    var answer := Step(b, op, now).1;
    assert Owed(past[id], 0, 0, n) && Among(answer.deposits, n);
    i :| i < |answer.deposits| && answer.deposits[i].depositId == n;
    assert HandedOver(past[id], answer.deposits[i]);
  }

  /** An arm is held to its lengths, a Register also to a time to live and a cap, before anything is read. */
  lemma ShapedExactly(op: Op)
    ensures ShapeError(op).None? <==>
              match op
              case Register(_, r, ttl, liveCap) => |r.depositPub| == |r.collectPub| == 32 && |r.publicCt| == 4124 && 1 <= ttl && 1 <= liveCap
              case Deposit(_, verifiedPub, ct, _) => |verifiedPub| == 32 && |ct| == 17526
              case Collect(_, verifiedPub, _, _, _) => |verifiedPub| == 32
              case Retire(_, verifiedPub) => |verifiedPub| == 32
              case _ => true
  {
  }

  /** Instants are cut to the microsecond below. */
  lemma CutToTheMicrosecond(now: Time)
    ensures LinkBoxTime(now) <= now < LinkBoxTime(now) + 1000 && LinkBoxTime(now) % 1000 == 0
  {
  }
}
