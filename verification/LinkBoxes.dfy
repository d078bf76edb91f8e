/**
 The link boxes: one row a box, at most two deposits over its life, every answer decided by the
 box's fixed expiry, and a bounded collector that reclaims what has expired. Instants are
 nanoseconds; every instant a row holds has been cut to the microsecond.
 */
module LinkBoxes {
  import opened Common
  import opened Records

  /** A rendezvous id, as the number its 32 octets spell, so that the order of ids is the order of octets. */
  type BoxId = nat

  const LINK_CARD_BYTES := 4124
  const LINK_DEPOSIT_BYTES := 17526
  const LINK_BOX_DEPOSITS: nat := 2

  datatype BoxRow = BoxRow(
    depositPub: Bytes, collectPub: Bytes, publicCt: Bytes,
    nextDepositId: nat, depositCount: nat, refusedCount: nat,
    registerTime: Time, expireTime: Time, retiredTime: Option<Time>, reclaimAfter: Time)

  /** `hash` is the SHA-256 of `ct`, carried beside it; nothing here depends on it being injective. */
  datatype DepositRow = DepositRow(box: BoxId, depositId: nat, hash: Bytes, ct: Bytes, createTime: Time, pruneAfter: Time)

  /** The rows of both tables; a box with no deposit standing has no entry in `deposits`. */
  datatype Boxes = Boxes(rows: map<BoxId, BoxRow>, deposits: map<BoxId, seq<DepositRow>>)

  function LinkBoxTime(now: Time): (t: Time)
    ensures t <= now
  {
    now - now % 1000
  }

  lemma LinkBoxTimeMonotone(a: Time, b: Time)
    requires a <= b
    ensures LinkBoxTime(a) <= LinkBoxTime(b)
  {
  }

  predicate Live(row: BoxRow, t: Time) {
    row.retiredTime.None? && t < row.expireTime
  }

  function Standing(b: Boxes, id: BoxId): seq<DepositRow> {
    if id in b.deposits then b.deposits[id] else []
  }

  function WithDeposits(deposits: map<BoxId, seq<DepositRow>>, id: BoxId, standing: seq<DepositRow>)
    : map<BoxId, seq<DepositRow>>
  {
    if standing == [] then deposits - {id} else deposits[id := standing]
  }

  ghost function LiveIds(b: Boxes, t: Time): set<BoxId> {
    set id | id in b.rows && Live(b.rows[id], t)
  }

  // ---- the arms ----

  datatype Registration = Registration(depositPub: Bytes, collectPub: Bytes, publicCt: Bytes)

  datatype LinkBoxError = ErrShape | ErrLinkBoxShape | ErrLinkBoxTtl | ErrLinkBoxLiveCap

  datatype Op =
    | Register(id: BoxId, registration: Registration, ttl: int, liveCap: nat)
    | Open(id: BoxId)
    | Deposit(id: BoxId, verifiedPub: Bytes, ct: Bytes, hash: Bytes)
    | Collect(id: BoxId, verifiedPub: Bytes, since: nat, ackThrough: nat, limit: nat)
    | Retire(id: BoxId, verifiedPub: Bytes)
    | CountLive

  datatype Answer =
    | BadShape(error: LinkBoxError)
    | Registered(reason: Reason, expireTime: Time, depth: nat)
    | Opened(reason: Reason, depositPub: Bytes, collectPub: Bytes, publicCt: Bytes)
    | Deposited(reason: Reason, depositId: nat, hash: Bytes, pending: nat, replayed: bool)
    | Collected(reason: Reason, deposits: seq<DepositRow>, pending: nat, refused: nat, expireTime: Time, complete: bool)
    | Retired(reason: Reason, discarded: nat)
    | Counted(live: nat)

  /** The shape checks each arm makes before it reads anything. */
  function ShapeError(op: Op): Option<LinkBoxError> {
    match op
    case Register(_, registration, ttl, liveCap) =>
      if |registration.depositPub| != VERIFY_PUB_BYTES || |registration.collectPub| != VERIFY_PUB_BYTES then Some(ErrShape)
      else if |registration.publicCt| != LINK_CARD_BYTES then Some(ErrLinkBoxShape)
      else if ttl <= 0 then Some(ErrLinkBoxTtl)
      else if liveCap == 0 then Some(ErrLinkBoxLiveCap)
      else None
    case Deposit(_, verifiedPub, ct, _) =>
      if |verifiedPub| != VERIFY_PUB_BYTES then Some(ErrShape)
      else if |ct| != LINK_DEPOSIT_BYTES then Some(ErrLinkBoxShape)
      else None
    case Collect(_, verifiedPub, _, _, _) => if |verifiedPub| != VERIFY_PUB_BYTES then Some(ErrShape) else None
    case Retire(_, verifiedPub) => if |verifiedPub| != VERIFY_PUB_BYTES then Some(ErrShape) else None
    case _ => None
  }

  predicate SameRegistration(row: BoxRow, registration: Registration) {
    row.depositPub == registration.depositPub && row.collectPub == registration.collectPub
    && row.publicCt == registration.publicCt
  }

  function NewRow(registration: Registration, t: Time, expire: Time): BoxRow {
    BoxRow(registration.depositPub, registration.collectPub, registration.publicCt, 1, 0, 0, t, expire, None, expire)
  }

  ghost function RegisterStep(b: Boxes, id: BoxId, registration: Registration, ttl: int, liveCap: nat, now: Time)
    : (Boxes, Answer)
  {
    var t := LinkBoxTime(now);
    if id in b.rows then
      if Live(b.rows[id], t) && SameRegistration(b.rows[id], registration)
      then (b, Registered(ReasonOk, b.rows[id].expireTime, b.rows[id].depositCount))
      else (b, Registered(ReasonRejected, 0, 0))
    else if liveCap <= |LiveIds(b, t)| then (b, Registered(ReasonCardRateLimited, 0, 0))
    else
      var expire := LinkBoxTime(t + ttl);
      (b.(rows := b.rows[id := NewRow(registration, t, expire)]), Registered(ReasonOk, expire, 0))
  }

  /** The read every later arm's check makes, and the one answer for every box no arm may use. */
  function OpenStep(b: Boxes, id: BoxId, now: Time): Answer {
    if id in b.rows && Live(b.rows[id], LinkBoxTime(now))
    then Opened(ReasonOk, b.rows[id].depositPub, b.rows[id].collectPub, b.rows[id].publicCt)
    else Opened(ReasonCardRetired, [], [], [])
  }

  /** The place of a deposit with this hash among those standing, or their number when there is none. */
  function FindHash(standing: seq<DepositRow>, hash: Bytes, next: nat): (i: nat)
    requires next <= |standing|
    ensures next <= i <= |standing|
    ensures i < |standing| ==> standing[i].hash == hash
    ensures forall j :: next <= j < i ==> standing[j].hash != hash
    decreases |standing| - next
  {
    if next == |standing| || standing[next].hash == hash then next else FindHash(standing, hash, next + 1)
  }

  /** Taking one deposit into a live box pinned under the key the request was verified against. */
  function TakeDeposit(b: Boxes, id: BoxId, ct: Bytes, hash: Bytes, t: Time): (Boxes, Answer)
    requires id in b.rows
  {
    var row, standing := b.rows[id], Standing(b, id);
    var i := FindHash(standing, hash, 0);
    if i < |standing| then (b, Deposited(ReasonOk, standing[i].depositId, standing[i].hash, row.depositCount, true))
    else if row.nextDepositId >= LINK_BOX_DEPOSITS + 1 then
      (b.(rows := b.rows[id := row.(refusedCount := row.refusedCount + 1)]), Deposited(ReasonCardRateLimited, 0, [], 0, false))
    else
      (Boxes(b.rows[id := row.(nextDepositId := row.nextDepositId + 1, depositCount := row.depositCount + 1)],
             WithDeposits(b.deposits, id, standing + [DepositRow(id, row.nextDepositId, hash, ct, t, row.expireTime)])),
       Deposited(ReasonOk, row.nextDepositId, hash, row.depositCount + 1, false))
  }

  function DepositStep(b: Boxes, id: BoxId, verifiedPub: Bytes, ct: Bytes, hash: Bytes, now: Time): (Boxes, Answer) {
    var t := LinkBoxTime(now);
    if id !in b.rows || !Live(b.rows[id], t) || b.rows[id].depositPub != verifiedPub
    then (b, Deposited(ReasonCardRetired, 0, [], 0, false))
    else TakeDeposit(b, id, ct, hash, t)
  }

  /** The deposits whose id is past `through`, in order. */
  function After(standing: seq<DepositRow>, through: nat): (r: seq<DepositRow>)
    ensures |r| <= |standing|
  {
    if |standing| == 0 then []
    else
      var rest := After(standing[..|standing| - 1], through);
      if through < standing[|standing| - 1].depositId then rest + [standing[|standing| - 1]] else rest
  }

  function CollectStep(b: Boxes, id: BoxId, verifiedPub: Bytes, since: nat, ackThrough: nat, limit: nat, now: Time)
    : (Boxes, Answer)
  {
    if id !in b.rows || !Live(b.rows[id], LinkBoxTime(now)) || b.rows[id].collectPub != verifiedPub
    then (b, Collected(ReasonCardRetired, [], 0, 0, 0, false))
    else
      var row, kept := b.rows[id], After(Standing(b, id), ackThrough);
      var after := After(kept, since);
      var cut := limit != 0 && limit < |after|;
      (Boxes(b.rows[id := row.(refusedCount := 0, depositCount := |kept|)], WithDeposits(b.deposits, id, kept)),
       Collected(ReasonOk, if cut then after[..limit] else after, |kept|, row.refusedCount, row.expireTime, !cut))
  }

  function RetireStep(b: Boxes, id: BoxId, verifiedPub: Bytes, now: Time): (Boxes, Answer) {
    var t := LinkBoxTime(now);
    if id !in b.rows || !Live(b.rows[id], t) || b.rows[id].collectPub != verifiedPub
    then (b, Retired(ReasonCardRetired, 0))
    else
      (Boxes(b.rows[id := b.rows[id].(retiredTime := Some(t), depositCount := 0)], b.deposits - {id}),
       Retired(ReasonOk, |Standing(b, id)|))
  }

  /** One arm, at one instant. */
  ghost function Step(b: Boxes, op: Op, now: Time): (Boxes, Answer) {
    if ShapeError(op).Some? then (b, BadShape(ShapeError(op).value))
    else
      match op
      case Register(id, registration, ttl, liveCap) => RegisterStep(b, id, registration, ttl, liveCap, now)
      case Open(id) => (b, OpenStep(b, id, now))
      case Deposit(id, verifiedPub, ct, hash) => DepositStep(b, id, verifiedPub, ct, hash, now)
      case Collect(id, verifiedPub, since, ackThrough, limit) =>
        CollectStep(b, id, verifiedPub, since, ackThrough, limit, now)
      case Retire(id, verifiedPub) => RetireStep(b, id, verifiedPub, now)
      case CountLive => (b, Counted(|LiveIds(b, LinkBoxTime(now))|))
  }

  // ---- the sweep ----

  /** A row that is due: when it fell due, the box it is of, and the deposit it is (0 for the box itself). */
  datatype Due = Due(when: Time, box: BoxId, deposit: nat)

  /** Oldest first, ties by box and then by deposit. */
  predicate Before(a: Due, b: Due) {
    a.when < b.when || (a.when == b.when && (a.box < b.box || (a.box == b.box && a.deposit < b.deposit)))
  }

  function DueOf(d: DepositRow): Due {
    Due(d.pruneAfter, d.box, d.depositId)
  }

  function DueBox(id: BoxId, row: BoxRow): Due {
    Due(row.reclaimAfter, id, 0)
  }

  ghost function DueDeposits(b: Boxes, t: Time): set<Due> {
    set id, i | id in b.deposits && 0 <= i < |b.deposits[id]| && b.deposits[id][i].pruneAfter <= t :: DueOf(b.deposits[id][i])
  }

  ghost function DueBoxes(b: Boxes, t: Time): set<Due> {
    set id | id in b.rows && b.rows[id].reclaimAfter <= t :: DueBox(id, b.rows[id])
  }

  /** `chosen` is the oldest of `all`, as many as the bound allows. */
  ghost predicate Oldest(chosen: set<Due>, all: set<Due>, bound: nat) {
    && chosen <= all
    && |chosen| == Min(bound, |all|)
    && (forall c, o :: c in chosen && o in all && o !in chosen ==> Before(c, o))
  }

  /** The deposits of one box that a sweep leaves. */
  function Keep(standing: seq<DepositRow>, gone: set<Due>): (r: seq<DepositRow>)
    ensures |r| <= |standing|
    ensures forall d :: d in r <==> d in standing && DueOf(d) !in gone
  {
    if |standing| == 0 then []
    else
      var rest := Keep(standing[..|standing| - 1], gone);
      if DueOf(standing[|standing| - 1]) in gone then rest else rest + [standing[|standing| - 1]]
  }

  predicate Touched(gone: set<Due>, id: BoxId) {
    exists d :: d in gone && d.box == id
  }

  /** The first statement: the chosen deposits go, and every box that lost one is recounted. */
  ghost function PruneDeposits(b: Boxes, gone: set<Due>): Boxes {
    Boxes(map id | id in b.rows ::
            if Touched(gone, id) then b.rows[id].(depositCount := |Keep(Standing(b, id), gone)|) else b.rows[id],
          map id | id in b.deposits && Keep(b.deposits[id], gone) != [] :: Keep(b.deposits[id], gone))
  }

  ghost function Ids(gone: set<Due>): set<BoxId> {
    set d | d in gone :: d.box
  }

  /** The second statement: the chosen boxes go, with whatever they still hold. */
  ghost function ReclaimBoxes(b: Boxes, gone: set<Due>): Boxes {
    Boxes(b.rows - Ids(gone), b.deposits - Ids(gone))
  }

  datatype Bounds = Bounds(deposits: nat, boxes: nat)

  const DEFAULT_BOUNDS := Bounds(1000, 500)

  /** A bound of zero is the default. */
  function OrDefault(bounds: Bounds): Bounds {
    Bounds(if bounds.deposits == 0 then DEFAULT_BOUNDS.deposits else bounds.deposits,
           if bounds.boxes == 0 then DEFAULT_BOUNDS.boxes else bounds.boxes)
  }

  /** One batch of the sweep: the oldest due deposits, then the oldest due boxes, each up to its bound. */
  ghost predicate SweepChooses(b: Boxes, now: Time, bounds: Bounds, pruned: set<Due>, reclaimed: set<Due>) {
    && Oldest(pruned, DueDeposits(b, LinkBoxTime(now)), OrDefault(bounds).deposits)
    && Oldest(reclaimed, DueBoxes(b, LinkBoxTime(now)), OrDefault(bounds).boxes)
  }

  ghost function Swept(b: Boxes, pruned: set<Due>, reclaimed: set<Due>): Boxes {
    ReclaimBoxes(PruneDeposits(b, pruned), reclaimed)
  }

  // ---- what every reachable store satisfies ----

  ghost predicate DepositsOrdered(standing: seq<DepositRow>, id: BoxId, row: BoxRow) {
    && (forall i :: 0 <= i < |standing| ==>
          && standing[i].box == id && 1 <= standing[i].depositId < row.nextDepositId
          && standing[i].pruneAfter == row.expireTime)
    && (forall i, j :: 0 <= i < j < |standing| ==> standing[i].depositId < standing[j].depositId)
    && (forall i, j :: 0 <= i < j < |standing| ==> standing[i].hash != standing[j].hash)
  }

  ghost predicate BoxSound(b: Boxes, id: BoxId)
    requires id in b.rows
  {
    var row := b.rows[id];
    && row.reclaimAfter == row.expireTime
    && 1 <= row.nextDepositId <= LINK_BOX_DEPOSITS + 1
    && row.depositCount == |Standing(b, id)|
    && (row.retiredTime.Some? ==> Standing(b, id) == [])
    && DepositsOrdered(Standing(b, id), id, row)
  }

  ghost predicate BoxesInv(b: Boxes) {
    && (forall id :: id in b.deposits ==> id in b.rows && b.deposits[id] != [])
    && (forall id :: id in b.rows ==> BoxSound(b, id))
  }
}
