/**
 The link boxes beside the rendezvous push registry, each under its own lock: a deposit or a retire is
 written in the one and told to the other in a later step, a subscribing Collect reads, claims, writes
 and settles in four, and sweeps and new registrations fall anywhere between.
 */
module BoxesAndPush {
  import opened Common
  import opened Records
  import L = LinkBoxes
  import LR = LinkBoxRuns
  import LL = LinkBoxLedger
  import LV = LinkBoxLives
  import P = RendezvousPush
  import R = RendezvousRuns

  /** A box as a call found it: its id, its row, and how many boxes had been registered anywhere by then. */
  datatype Site = Site(box: nat, born: nat, row: L.BoxRow)

  /** A deposit stored and not a replay: its id, the count it was answered with and its box's books just after. */
  datatype Deposit = Deposit(site: Site, depositId: nat, pending: nat, now: Time, tally: LL.Tally)

  datatype Phase =
    | Verified(key: P.Key, site: Site, now: Time)
    | Claimed(key: P.Key, site: Site, now: Time, held: bool)
    | Written(key: P.Key, held: bool, taken: bool)
    | Stored(deposit: Deposit)
    | Retired(site: Site)
    | Told(deposit: Deposit)
    | Finished

  /**
   A subscription object's history: its key, how many boxes had been registered when its Collect read
   the box, how many deposits had been stored when it was made, the deposit calls it has been told of
   in order, and how many of those had been when it was last taken for a push.
   */
  datatype Made = Made(key: P.Key, born: nat, since: nat, told: seq<nat>, taken: nat)

  /** `births` are the ids registered and `stored` the deposit calls stored, each in order. */
  datatype Joint = Joint(
    b: L.Boxes, ledger: LL.Ledger, births: seq<nat>, push: R.System, calls: map<nat, Phase>, stored: seq<nat>, subs: map<nat, Made>)

  datatype Event =
    | Arm(op: L.Op, now: Time)
    | Sweep(now: Time, bounds: L.Bounds, pruned: set<L.Due>, reclaimed: set<L.Due>)
    | WriteDeposit(c: nat, op: L.Op, now: Time)
    | WriteRetire(c: nat, op: L.Op, now: Time)
    | ReadCollect(c: nat, connection: nat, box: nat, now: Time)
    | BeginCollect(c: nat)
    | WriteCollect(c: nat, since: nat, ackThrough: nat, limit: nat)
    | SettleCollect(c: nat)
    | TellDeposit(c: nat)
    | TellRetire(c: nat)
    | PushStep(p: R.Event)

  /** The steps of the delivery loop and its wake-ups. */
  predicate OfTheLoop(p: R.Event) {
    p.WakeUp? || p.GroupWakeUp? || p.LoopWakes? || p.LoopTakes? || p.LoopSent? || p.LoopLeaves? || p.LoopSleeps?
  }

  ghost predicate Enabled(j: Joint, e: Event) {
    match e
    case Arm(op, _) => op.Register? || op.Open? || op.CountLive? || op.Collect?
    case Sweep(now, bounds, pruned, reclaimed) => L.SweepChooses(j.b, now, bounds, pruned, reclaimed)
    case WriteDeposit(c, op, _) => c !in j.calls && op.Deposit?
    case WriteRetire(c, op, _) => c !in j.calls && op.Retire?
    case ReadCollect(c, _, box, now) => c !in j.calls && box in j.b.rows && L.Live(j.b.rows[box], L.LinkBoxTime(now))
    case BeginCollect(c) => c in j.calls && j.calls[c].Verified? && c !in j.push.collects
    case WriteCollect(c, _, _, _) => c in j.calls && j.calls[c].Claimed?
    case SettleCollect(c) => c in j.calls && j.calls[c].Written? && (j.calls[c].held ==> c in j.push.collects)
    case TellDeposit(c) => c in j.calls && j.calls[c].Stored?
    case TellRetire(c) => c in j.calls && j.calls[c].Retired?
    case PushStep(p) => OfTheLoop(p) && R.Enabled(j.push, p)
  }

  // ---- the store's half of a step ----

  /** The id at which an event registers a box that was not there. */
  ghost function BirthOf(b: L.Boxes, e: LR.Event): seq<nat> {
    if e.Arm? && e.op.Register? && e.op.id !in b.rows && e.op.id in LR.Next(b, e).rows then [e.op.id] else []
  }

  ghost function Book(ledger: LL.Ledger, b: L.Boxes, e: LR.Event): LL.Ledger {
    match e
    case Arm(op, now) => LL.BookArm(ledger, b, op, now)
    case SweepBatch(_, _, pruned, _) => LL.BookSweep(ledger, LR.Next(b, e), pruned)
  }

  ghost function InStore(j: Joint, e: LR.Event): Joint {
    j.(b := LR.Next(j.b, e), ledger := Book(j.ledger, j.b, e), births := j.births + BirthOf(j.b, e))
  }

  function SiteAt(j: Joint, box: nat): Site
    requires box in j.b.rows
  {
    Site(box, |j.births|, j.b.rows[box])
  }

  predicate NewDeposit(answer: L.Answer) {
    answer.Deposited? && answer.reason == ReasonOk && !answer.replayed
  }

  ghost function AfterDeposit(j: Joint, c: nat, op: L.Op, now: Time): Joint
    requires op.Deposit?
  {
    var j', answer := InStore(j, LR.Arm(op, now)), L.Step(j.b, op, now).1;
    if NewDeposit(answer) && op.id in j'.b.rows && op.id in j'.ledger then
      j'.(calls := j'.calls[c := Stored(Deposit(SiteAt(j', op.id), answer.depositId, answer.pending, now, j'.ledger[op.id]))],
          stored := j'.stored + [c])
    else j'
  }

  ghost function AfterRetire(j: Joint, c: nat, op: L.Op, now: Time): Joint
    requires op.Retire?
  {
    var j', answer := InStore(j, LR.Arm(op, now)), L.Step(j.b, op, now).1;
    if answer.Retired? && answer.reason == ReasonOk && op.id in j'.b.rows then j'.(calls := j'.calls[c := Retired(SiteAt(j', op.id))])
    else j'
  }

  // ---- the registry's half ----

  ghost function AfterBegin(max: int, j: Joint, c: nat): Joint
    requires c in j.calls && j.calls[c].Verified? && c !in j.push.collects
  {
    var key, site, now := j.calls[c].key, j.calls[c].site, j.calls[c].now;
    var outcome := P.Subscribe(j.push.r, max, key, site.row.expireTime, now).1;
    j.(push := R.Step(max, j.push, R.Begin(c, key, site.row.expireTime, now)),
       calls := j.calls[c := if outcome.Full? then Finished else Claimed(key, site, now, outcome.Claimed?)],
       subs := if outcome.Claimed? && outcome.added then j.subs[outcome.token := Made(key, site.born, |j.stored|, [], 0)] else j.subs)
  }

  function ToldOf(subs: map<nat, Made>, tokens: set<nat>, c: nat): map<nat, Made> {
    map t | t in subs :: if t in tokens then subs[t].(told := subs[t].told + [c]) else subs[t]
  }

  function TakenAt(subs: map<nat, Made>, token: nat): map<nat, Made> {
    if token in subs then subs[token := subs[token].(taken := |subs[token].told|)] else subs
  }

  ghost function Step(max: int, j: Joint, e: Event): Joint
    requires Enabled(j, e)
  {
    match e
    case Arm(op, now) => InStore(j, LR.Arm(op, now))
    case Sweep(now, bounds, pruned, reclaimed) => InStore(j, LR.SweepBatch(now, bounds, pruned, reclaimed))
    case WriteDeposit(c, op, now) => AfterDeposit(j, c, op, now)
    case WriteRetire(c, op, now) => AfterRetire(j, c, op, now)
    case ReadCollect(c, connection, box, now) => j.(calls := j.calls[c := Verified(P.Key(connection, box), SiteAt(j, box), now)])
    case BeginCollect(c) => AfterBegin(max, j, c)
    case WriteCollect(c, since, ackThrough, limit) =>
      var call := j.calls[c];
      var op := L.Collect(call.key.box, call.site.row.collectPub, since, ackThrough, limit);
      var answer := L.Step(j.b, op, call.now).1;
      InStore(j, LR.Arm(op, call.now)).(calls := j.calls[c := Written(call.key, call.held, answer.Collected? && answer.reason == ReasonOk)])
    case SettleCollect(c) =>
      j.(push := if j.calls[c].held then R.Step(max, j.push, R.Settled(c, j.calls[c].taken)) else j.push, calls := j.calls[c := Finished])
    case TellDeposit(c) =>
      var d := j.calls[c].deposit;
      var push' := R.Step(max, j.push, R.TellDeposit(d.site.box, d.pending, d.now));
      j.(push := push', calls := j.calls[c := Told(d)], subs := ToldOf(j.subs, R.TokensAt(push'.r.boxes, d.site.box), c))
    case TellRetire(c) => j.(push := R.Step(max, j.push, R.TellRetire(j.calls[c].site.box)), calls := j.calls[c := Finished])
    case PushStep(p) =>
      j.(push := R.Step(max, j.push, p),
         subs := if p.LoopTakes? then TakenAt(j.subs, P.TokenAt(j.push.r.boxes, p.key)) else j.subs)
  }

  // ---- what every reachable pair satisfies ----

  /** No box has been registered at this id since. */
  ghost predicate NoneBorn(births: seq<nat>, from: nat, box: nat) {
    forall n: nat :: from <= n < |births| ==> births[n] != box
  }

  function GoneFrom(tally: LL.Tally): nat {
    tally.acknowledged + tally.discarded + tally.swept
  }

  /** With none registered at its id since, the row there is the very box. */
  ghost predicate SiteSound(b: L.Boxes, births: seq<nat>, site: Site) {
    && site.born <= |births|
    && (site.box in b.rows && NoneBorn(births, site.born, site.box) ==> LL.SameLife(site.row, b.rows[site.box]))
  }

  /** And a deposit's books are an earlier page of that box's. */
  ghost predicate DepositSound(b: L.Boxes, ledger: LL.Ledger, births: seq<nat>, d: Deposit) {
    && SiteSound(b, births, d.site)
    && 1 <= d.pending && d.depositId == d.tally.taken == d.pending + GoneFrom(d.tally)
    && (d.site.box in b.rows && d.site.box in ledger && NoneBorn(births, d.site.born, d.site.box) ==>
          d.tally.taken <= ledger[d.site.box].taken && GoneFrom(d.tally) <= GoneFrom(ledger[d.site.box]))
  }

  predicate OfDeposit(phase: Phase) {
    phase.Stored? || phase.Told?
  }

  ghost predicate PhaseSound(b: L.Boxes, ledger: LL.Ledger, births: seq<nat>, phase: Phase) {
    match phase
    case Verified(_, site, _) => SiteSound(b, births, site)
    case Claimed(_, site, _, _) => SiteSound(b, births, site)
    case Stored(d) => DepositSound(b, ledger, births, d)
    case Told(d) => DepositSound(b, ledger, births, d)
    case Retired(site) =>
      SiteSound(b, births, site) && site.row.retiredTime.Some?
    case _ => true
  }

  ghost predicate CallsSound(b: L.Boxes, ledger: LL.Ledger, births: seq<nat>, calls: map<nat, Phase>) {
    forall c :: c in calls ==> PhaseSound(b, ledger, births, calls[c])
  }

  ghost predicate StoredListed(calls: map<nat, Phase>, stored: seq<nat>) {
    && (forall n: nat :: n < |stored| ==> stored[n] in calls && OfDeposit(calls[stored[n]]))
    && (forall c :: c in calls && OfDeposit(calls[c]) ==> c in stored)
    && (forall m: nat, n: nat :: m < n < |stored| ==> stored[m] != stored[n])
  }

  predicate Holds(phase: Phase) {
    (phase.Claimed? || phase.Written?) && phase.held
  }

  ghost predicate CollectsMatch(calls: map<nat, Phase>, collects: map<nat, R.Collect>) {
    && (forall c :: c in collects <==> c in calls && Holds(calls[c]))
    && (forall c :: c in collects && c in calls && Holds(calls[c]) ==> collects[c].key == calls[c].key)
  }

  /** What a subscription has been told of are deposits told at its id, each once. */
  ghost predicate ToldSound(calls: map<nat, Phase>, m: Made) {
    && m.taken <= |m.told|
    && (forall n: nat :: n < |m.told| ==> m.told[n] in calls && calls[m.told[n]].Told? && calls[m.told[n]].deposit.site.box == m.key.box)
    && (forall i: nat, n: nat :: i < n < |m.told| ==> m.told[i] != m.told[n])
  }

  /** Every deposit stored at its id since it was made is one it was told of, or one still to be told. */
  ghost predicate Complete(calls: map<nat, Phase>, stored: seq<nat>, m: Made) {
    forall n: nat :: m.since <= n < |stored| && stored[n] in calls && OfDeposit(calls[stored[n]])
                     && calls[stored[n]].deposit.site.box == m.key.box ==>
                       calls[stored[n]].Stored? || stored[n] in m.told
  }

  /** A mark stands exactly for tellings not taken yet, and the push will carry the last telling's count. */
  ghost predicate MarkSound(push: R.System, calls: map<nat, Phase>, t: nat, m: Made)
    requires t in push.r.objects
  {
    && (m.key in push.r.ready <==> m.taken < |m.told|)
    && (m.told != [] && m.told[|m.told| - 1] in calls && calls[m.told[|m.told| - 1]].Told? ==>
          push.r.objects[t].pending == calls[m.told[|m.told| - 1]].deposit.pending)
  }

  ghost predicate SubSound(push: R.System, calls: map<nat, Phase>, stored: seq<nat>, births: nat, t: nat, m: Made)
    requires t in push.r.objects
  {
    && m.since <= |stored| && m.born <= births && ToldSound(calls, m) && R.StandsOnlyAt(push.r.boxes, t, m.key)
    && (P.StandsAs(push.r.boxes, m.key, t) ==> Complete(calls, stored, m) && MarkSound(push, calls, t, m))
  }

  ghost predicate SubsSound(j: Joint) {
    && j.subs.Keys == j.push.r.objects.Keys
    && (forall t :: t in j.subs ==> SubSound(j.push, j.calls, j.stored, |j.births|, t, j.subs[t]))
  }

  ghost predicate JointInv(max: int, j: Joint) {
    && L.BoxesInv(j.b) && LL.BooksBalance(j.b, j.ledger) && R.SystemInv(max, j.push)
    && CallsSound(j.b, j.ledger, j.births, j.calls) && StoredListed(j.calls, j.stored)
    && CollectsMatch(j.calls, j.push.collects) && SubsSound(j)
  }

  // ---- a step of the store ----

  /** A row after an event is the row before it, or one the event registered where there was none. */
  lemma RowComesFrom(b: L.Boxes, e: LR.Event, id: nat)
    ensures id in LR.Next(b, e).rows ==>
              || (id in b.rows && LL.SameLife(b.rows[id], LR.Next(b, e).rows[id]))
              || (id !in b.rows && BirthOf(b, e) == [id])
    ensures id in b.rows ==> BirthOf(b, e) != [id]
  {
    hide LL.SameLife, LR.Next;
    LV.EventKeepsLife(b, map[], e, id);
  }

  lemma InStoreKeepsSite(b: L.Boxes, births: seq<nat>, e: LR.Event, site: Site)
    requires SiteSound(b, births, site)
    ensures SiteSound(LR.Next(b, e), births + BirthOf(b, e), site)
  {
    hide LR.Next, LL.SameLife, BirthOf;
    var b', births' := LR.Next(b, e), births + BirthOf(b, e);
    RowComesFrom(b, e, site.box);
    if site.box in b'.rows && NoneBorn(births', site.born, site.box) {
      StillNoneBorn(births, BirthOf(b, e), site.born, site.box);
      LV.SameLifeTransitive(site.row, b.rows[site.box], b'.rows[site.box]);
    }
  }

  lemma StillNoneBorn(births: seq<nat>, more: seq<nat>, from: nat, box: nat)
    requires from <= |births| && NoneBorn(births + more, from, box)
    ensures NoneBorn(births, from, box) && more != [box]
  {
    forall n: nat | from <= n < |births| ensures births[n] != box { assert (births + more)[n] == births[n]; }
    assert |more| == 1 ==> (births + more)[|births|] == more[0];
  }

  /** The books of a box that stands only gain entries. */
  lemma BooksGrow(b: L.Boxes, ledger: LL.Ledger, e: LR.Event, id: nat)
    requires id in b.rows && id in LR.Next(b, e).rows && id in ledger
    ensures var ledger' := Book(ledger, b, e);
            id in ledger' ==> ledger[id].taken <= ledger'[id].taken && GoneFrom(ledger[id]) <= GoneFrom(ledger'[id])
  {
    hide L.Step, L.Swept, LL.PrunedAt, LL.Acknowledged;
  }

  lemma InStoreKeepsDeposit(b: L.Boxes, ledger: LL.Ledger, births: seq<nat>, e: LR.Event, d: Deposit)
    requires LL.BooksBalance(b, ledger) && DepositSound(b, ledger, births, d)
    ensures DepositSound(LR.Next(b, e), Book(ledger, b, e), births + BirthOf(b, e), d)
  {
    hide LR.Next, LL.SameLife, BirthOf, Book, LL.Balanced;
    var b', births' := LR.Next(b, e), births + BirthOf(b, e);
    InStoreKeepsSite(b, births, e, d.site);
    RowComesFrom(b, e, d.site.box);
    if d.site.box in b'.rows && NoneBorn(births', d.site.born, d.site.box) {
      StillNoneBorn(births, BirthOf(b, e), d.site.born, d.site.box);
      BooksGrow(b, ledger, e, d.site.box);
    }
  }

  lemma InStoreKeepsCalls(b: L.Boxes, ledger: LL.Ledger, births: seq<nat>, e: LR.Event, calls: map<nat, Phase>)
    requires LL.BooksBalance(b, ledger) && CallsSound(b, ledger, births, calls)
    ensures CallsSound(LR.Next(b, e), Book(ledger, b, e), births + BirthOf(b, e), calls)
  {
    hide LR.Next, BirthOf, Book, SiteSound, DepositSound, LL.BooksBalance;
    forall c | c in calls ensures PhaseSound(LR.Next(b, e), Book(ledger, b, e), births + BirthOf(b, e), calls[c]) {
      assert PhaseSound(b, ledger, births, calls[c]);
      match calls[c]
      case Verified(_, site, _) => InStoreKeepsSite(b, births, e, site);
      case Claimed(_, site, _, _) => InStoreKeepsSite(b, births, e, site);
      case Retired(site) => InStoreKeepsSite(b, births, e, site);
      case Stored(d) => InStoreKeepsDeposit(b, ledger, births, e, d);
      case Told(d) => InStoreKeepsDeposit(b, ledger, births, e, d);
      case _ =>
    }
  }

  /** Legal events of the store keep its own invariant and its books. */
  lemma InStoreKeepsBooks(b: L.Boxes, ledger: LL.Ledger, e: LR.Event)
    requires L.BoxesInv(b) && LL.BooksBalance(b, ledger)
    requires e.SweepBatch? ==> L.SweepChooses(b, e.now, e.bounds, e.pruned, e.reclaimed)
    ensures L.BoxesInv(LR.Next(b, e)) && LL.BooksBalance(LR.Next(b, e), Book(ledger, b, e))
  {
    hide L.BoxesInv, LL.BooksBalance, L.Step, L.Swept, L.SweepChooses;
    match e
    case Arm(op, now) =>
      LR.StepKeepsInv(b, op, now);
      LL.ArmBalances(b, ledger, op, now);
    case SweepBatch(now, bounds, pruned, reclaimed) =>
      LR.SweepKeepsInv(b, pruned, reclaimed);
      LL.SweepBalances(b, ledger, now, bounds, pruned, reclaimed);
  }

  lemma InStoreKeepsInv(max: int, j: Joint, e: LR.Event)
    requires JointInv(max, j)
    requires e.SweepBatch? ==> L.SweepChooses(j.b, e.now, e.bounds, e.pruned, e.reclaimed)
    ensures JointInv(max, InStore(j, e))
  {
    hide L.BoxesInv, LL.BooksBalance, R.SystemInv, CallsSound, StoredListed, CollectsMatch, LR.Next, Book, BirthOf, L.SweepChooses, ToldSound, Complete, MarkSound;
    InStoreKeepsBooks(j.b, j.ledger, e);
    InStoreKeepsCalls(j.b, j.ledger, j.births, e, j.calls);
  }

  // ---- calls that come and go ----

  /** Deposit calls stay as they were, and the new ones are stored and not told. */
  ghost predicate CallsGrow(calls: map<nat, Phase>, stored: seq<nat>, calls': map<nat, Phase>, stored': seq<nat>) {
    && (forall c :: c in calls && OfDeposit(calls[c]) ==> c in calls' && calls'[c] == calls[c])
    && stored <= stored'
    && (forall n: nat :: |stored| <= n < |stored'| ==> stored'[n] in calls' && calls'[stored'[n]].Stored?)
  }

  lemma GrownSub(push: R.System, calls: map<nat, Phase>, stored: seq<nat>, calls': map<nat, Phase>, stored': seq<nat>, births: nat, t: nat, m: Made)
    requires t in push.r.objects && SubSound(push, calls, stored, births, t, m) && StoredListed(calls, stored)
    requires CallsGrow(calls, stored, calls', stored')
    ensures SubSound(push, calls', stored', births, t, m)
  {
    hide R.StandsOnlyAt, P.StandsAs;
    if P.StandsAs(push.r.boxes, m.key, t) {
      forall n: nat | m.since <= n < |stored'| && stored'[n] in calls' && OfDeposit(calls'[stored'[n]])
                      && calls'[stored'[n]].deposit.site.box == m.key.box
        ensures calls'[stored'[n]].Stored? || stored'[n] in m.told
      {
        if n < |stored| { assert stored'[n] == stored[n]; }
      }
      if m.told != [] { assert calls[m.told[|m.told| - 1]].Told?; }
    }
  }

  lemma GrownSubs(j: Joint, calls': map<nat, Phase>, stored': seq<nat>)
    requires SubsSound(j) && StoredListed(j.calls, j.stored) && CallsGrow(j.calls, j.stored, calls', stored')
    ensures SubsSound(j.(calls := calls', stored := stored'))
  {
    hide SubSound, StoredListed, CallsGrow;
    forall t | t in j.subs ensures SubSound(j.push, calls', stored', |j.births|, t, j.subs[t]) {
      GrownSub(j.push, j.calls, j.stored, calls', stored', |j.births|, t, j.subs[t]);
    }
  }

  /** A call that is of no deposit changes to another such, holding its claim as before. */
  lemma RephasedKeepsInv(max: int, j: Joint, c: nat, phase: Phase)
    requires JointInv(max, j) && (c in j.calls ==> !OfDeposit(j.calls[c])) && !OfDeposit(phase)
    requires PhaseSound(j.b, j.ledger, j.births, phase)
    requires Holds(phase) <==> c in j.calls && Holds(j.calls[c])
    requires Holds(phase) ==> phase.key == j.calls[c].key
    ensures JointInv(max, j.(calls := j.calls[c := phase]))
  {
    hide L.BoxesInv, LL.BooksBalance, R.SystemInv, PhaseSound, SubsSound;
    GrownSubs(j, j.calls[c := phase], j.stored);
  }

  lemma ReadKeepsInv(max: int, j: Joint, c: nat, connection: nat, box: nat, now: Time)
    requires JointInv(max, j) && Enabled(j, ReadCollect(c, connection, box, now))
    ensures JointInv(max, Step(max, j, ReadCollect(c, connection, box, now)))
  {
    hide JointInv, LL.SameLife, L.LinkBoxTime;
    LV.SameLifeReflexive(j.b.rows[box]);
    RephasedKeepsInv(max, j, c, Verified(P.Key(connection, box), SiteAt(j, box), now));
  }

  lemma WriteCollectKeepsInv(max: int, j: Joint, e: Event)
    requires JointInv(max, j) && Enabled(j, e) && e.WriteCollect?
    ensures JointInv(max, Step(max, j, e))
  {
    hide JointInv, InStore, L.Step;
    var call := j.calls[e.c];
    var op := L.Collect(call.key.box, call.site.row.collectPub, e.since, e.ackThrough, e.limit);
    InStoreKeepsInv(max, j, LR.Arm(op, call.now));
    StoreLeavesCalls(j, LR.Arm(op, call.now));
    var answer := L.Step(j.b, op, call.now).1;
    RephasedKeepsInv(max, InStore(j, LR.Arm(op, call.now)), e.c, Written(call.key, call.held, answer.Collected? && answer.reason == ReasonOk));
  }

  lemma StoreLeavesCalls(j: Joint, e: LR.Event)
    ensures InStore(j, e).calls == j.calls && InStore(j, e).stored == j.stored && InStore(j, e).push == j.push && InStore(j, e).subs == j.subs
    ensures e.Arm? ==> InStore(j, e).b == L.Step(j.b, e.op, e.now).0
  {
  }

  lemma WriteRetireKeepsInv(max: int, j: Joint, c: nat, op: L.Op, now: Time)
    requires JointInv(max, j) && Enabled(j, WriteRetire(c, op, now))
    ensures JointInv(max, Step(max, j, WriteRetire(c, op, now)))
  {
    hide JointInv, InStore, L.Step, LL.SameLife;
    var j' := InStore(j, LR.Arm(op, now));
    InStoreKeepsInv(max, j, LR.Arm(op, now));
    StoreLeavesCalls(j, LR.Arm(op, now));
    var answer := L.Step(j.b, op, now).1;
    if answer.Retired? && answer.reason == ReasonOk && op.id in j'.b.rows {
      LV.SameLifeReflexive(j'.b.rows[op.id]);
      RetireLeavesATombstone(j, op, now);
      RephasedKeepsInv(max, j', c, Retired(SiteAt(j', op.id)));
    }
  }

  lemma RetireLeavesATombstone(j: Joint, op: L.Op, now: Time)
    requires op.Retire? && L.Step(j.b, op, now).1.Retired? && L.Step(j.b, op, now).1.reason == ReasonOk
    ensures op.id in InStore(j, LR.Arm(op, now)).b.rows && InStore(j, LR.Arm(op, now)).b.rows[op.id].retiredTime.Some?
  {
    hide L.LinkBoxTime;
  }

  /** A new deposit is answered with the last id and the count of the row it leaves. */
  lemma DepositAnswers(b: L.Boxes, op: L.Op, now: Time)
    requires op.Deposit? && NewDeposit(L.Step(b, op, now).1)
    ensures var (b', answer) := L.Step(b, op, now);
            op.id in b'.rows && answer.depositId == b'.rows[op.id].nextDepositId - 1 && 1 <= answer.pending == b'.rows[op.id].depositCount
  {
    hide L.LinkBoxTime, L.FindHash;
  }

  lemma StoredIsSound(b: L.Boxes, ledger: LL.Ledger, births: seq<nat>, box: nat, depositId: nat, pending: nat, now: Time)
    requires L.BoxesInv(b) && LL.BooksBalance(b, ledger) && box in b.rows && box in ledger
    requires depositId == b.rows[box].nextDepositId - 1 && 1 <= pending == b.rows[box].depositCount
    ensures DepositSound(b, ledger, births, Deposit(Site(box, |births|, b.rows[box]), depositId, pending, now, ledger[box]))
  {
    hide L.DepositsOrdered;
    LV.SameLifeReflexive(b.rows[box]);
    LR.SoundAt(b, box);
  }

  lemma WriteDepositKeepsInv(max: int, j: Joint, c: nat, op: L.Op, now: Time)
    requires JointInv(max, j) && Enabled(j, WriteDeposit(c, op, now))
    ensures JointInv(max, Step(max, j, WriteDeposit(c, op, now)))
  {
    hide JointInv, InStore, L.Step;
    var e := LR.Arm(op, now);
    var j', answer := InStore(j, e), L.Step(j.b, op, now).1;
    InStoreKeepsInv(max, j, e);
    StoreLeavesCalls(j, e);
    if NewDeposit(answer) && op.id in j'.b.rows && op.id in j'.ledger {
      DepositAnswers(j.b, op, now);
      NewDepositKeepsInv(max, j', c, op.id, answer.depositId, answer.pending, now);
    }
  }

  lemma NewDepositKeepsInv(max: int, j: Joint, c: nat, box: nat, depositId: nat, pending: nat, now: Time)
    requires JointInv(max, j) && c !in j.calls && box in j.b.rows && box in j.ledger
    requires depositId == j.b.rows[box].nextDepositId - 1 && 1 <= pending == j.b.rows[box].depositCount
    ensures JointInv(max, j.(calls := j.calls[c := Stored(Deposit(SiteAt(j, box), depositId, pending, now, j.ledger[box]))], stored := j.stored + [c]))
  {
    hide L.BoxesInv, LL.BooksBalance, R.SystemInv, DepositSound, SiteSound, SubsSound;
    StoredIsSound(j.b, j.ledger, j.births, box, depositId, pending, now);
    var calls' := j.calls[c := Stored(Deposit(SiteAt(j, box), depositId, pending, now, j.ledger[box]))];
    GrownSubs(j, calls', j.stored + [c]);
    assert StoredListed(calls', j.stored + [c]);
  }

  // ---- the registry with nothing told ----

  /** Subscriptions may have ended; those that stand are marked, and carry, as before. */
  ghost predicate Quieter(r: P.Registry, r': P.Registry) {
    && P.Part(r'.boxes, r.boxes) && r'.objects.Keys == r.objects.Keys
    && (forall k :: P.Standing(r'.boxes, k) ==> (k in r'.ready <==> k in r.ready))
    && (forall k :: P.Standing(r'.boxes, k) && P.TokenAt(r'.boxes, k) in r.objects ==>
          r'.objects[P.TokenAt(r'.boxes, k)].pending == r.objects[P.TokenAt(r'.boxes, k)].pending)
  }

  lemma QuieterSub(push: R.System, push': R.System, calls: map<nat, Phase>, stored: seq<nat>, births: nat, t: nat, m: Made)
    requires Quieter(push.r, push'.r) && t in push.r.objects && SubSound(push, calls, stored, births, t, m)
    ensures SubSound(push', calls, stored, births, t, m)
  {
    hide ToldSound, Complete;
    R.PartStandsOnlyAt(push'.r.boxes, push.r.boxes, t, m.key);
  }

  lemma QuieterSubs(j: Joint, push': R.System)
    requires SubsSound(j) && Quieter(j.push.r, push'.r)
    ensures SubsSound(j.(push := push'))
  {
    hide SubSound;
    forall t | t in j.subs ensures SubSound(push', j.calls, j.stored, |j.births|, t, j.subs[t]) {
      QuieterSub(j.push, push', j.calls, j.stored, |j.births|, t, j.subs[t]);
    }
  }

  lemma ShrunkIsQuieter(r: P.Registry, r': P.Registry)
    requires R.Shrunk(r, r')
    ensures Quieter(r, r')
  {
  }

  lemma RetireIsQuieter(max: int, s: R.System, box: nat)
    requires R.SystemInv(max, s)
    ensures Quieter(s.r, R.Step(max, s, R.TellRetire(box)).r) && R.Step(max, s, R.TellRetire(box)).collects == s.collects
  {
    hide R.Shrunk, P.RegistryInv, P.DropBox, R.ClaimsExact, R.NamesKnown;
    R.DropBoxShrinks(s.r, max, box);
    ShrunkIsQuieter(s.r, P.DropBox(s.r, box));
  }

  lemma RemoveIsQuieter(max: int, r: P.Registry, key: P.Key)
    requires P.RegistryInv(r, max)
    ensures Quieter(r, P.Remove(r, key))
  {
    hide R.Shrunk, P.RegistryInv, P.Remove;
    R.RemoveShrinks(r, max, key);
    ShrunkIsQuieter(r, P.Remove(r, key));
  }

  lemma SettleIsQuieter(max: int, s: R.System, c: nat, taken: bool)
    requires R.SystemInv(max, s) && c in s.collects
    ensures Quieter(s.r, R.Step(max, s, R.Settled(c, taken)).r) && R.Step(max, s, R.Settled(c, taken)).collects == s.collects - {c}
  {
    hide R.ClaimsExact, R.NamesKnown, P.Remove, P.Bounded, P.Scheduled;
    var held := s.collects[c];
    if P.StandsAs(s.r.boxes, held.key, held.token) && held.token in s.r.objects {
      var sub := s.r.objects[held.token];
      var r' := s.r.(objects := s.r.objects[held.token := sub.(claims := sub.claims - 1, kept := sub.kept || taken)]);
      RewrittenIsQuieter(max, s.r, held.token, r'.objects[held.token]);
      P.SettleKeepsInv(s.r, max, held.key, held.token, true);
      RemoveIsQuieter(max, r', held.key);
      QuieterTwice(s.r, r', P.Remove(r', held.key));
    } else {
      QuieterItself(max, s.r);
    }
  }

  lemma QuieterItself(max: int, r: P.Registry)
    requires P.RegistryInv(r, max)
    ensures Quieter(r, r)
  {
    hide P.Bounded, P.Scheduled;
  }

  lemma QuieterTwice(a: P.Registry, b: P.Registry, c: P.Registry)
    requires Quieter(a, b) && Quieter(b, c)
    ensures Quieter(a, c)
  {
  }

  lemma RewrittenIsQuieter(max: int, r: P.Registry, token: nat, sub: P.Sub)
    requires P.RegistryInv(r, max) && token in r.objects && sub.pending == r.objects[token].pending
    ensures Quieter(r, r.(objects := r.objects[token := sub])) && P.RegistryInv(r.(objects := r.objects[token := sub]), max)
  {
    hide P.Bounded, P.Scheduled;
    assert r.objects[token := sub].Keys == r.objects.Keys;
  }

  lemma LoopIsQuieter(max: int, s: R.System, p: R.Event)
    requires R.SystemInv(max, s) && R.Enabled(s, p) && OfTheLoop(p) && !p.LoopTakes?
    ensures Quieter(s.r, R.Step(max, s, p).r) && R.Step(max, s, p).collects == s.collects
  {
    hide R.ClaimsExact, R.NamesKnown, P.Remove, P.BoxesSound, P.Bounded, P.Scheduled;
    if p.LoopSent? { RemoveIsQuieter(max, s.r, s.loop.key); }
    QuieterItself(max, s.r);
  }

  lemma TellRetireKeepsInv(max: int, j: Joint, c: nat)
    requires JointInv(max, j) && Enabled(j, TellRetire(c))
    ensures JointInv(max, Step(max, j, TellRetire(c)))
  {
    hide L.BoxesInv, LL.BooksBalance, R.SystemInv, R.Step, CallsSound, StoredListed, CollectsMatch, SubsSound;
    var e := R.TellRetire(j.calls[c].site.box);
    R.StepKeepsInv(max, j.push, e);
    RetireIsQuieter(max, j.push, e.box);
    QuieterSubs(j, R.Step(max, j.push, e));
    RephasedKeepsInv(max, j.(push := R.Step(max, j.push, e)), c, Finished);
  }

  lemma LoopKeepsInv(max: int, j: Joint, p: R.Event)
    requires JointInv(max, j) && Enabled(j, PushStep(p)) && !p.LoopTakes?
    ensures JointInv(max, Step(max, j, PushStep(p)))
  {
    hide L.BoxesInv, LL.BooksBalance, R.SystemInv, R.Step, R.Enabled, CallsSound, StoredListed, CollectsMatch, SubsSound;
    R.StepKeepsInv(max, j.push, p);
    LoopIsQuieter(max, j.push, p);
    QuieterSubs(j, R.Step(max, j.push, p));
  }

  lemma SettleKeepsInv(max: int, j: Joint, c: nat)
    requires JointInv(max, j) && Enabled(j, SettleCollect(c))
    ensures JointInv(max, Step(max, j, SettleCollect(c)))
  {
    hide L.BoxesInv, LL.BooksBalance, R.SystemInv, R.Step, CallsSound, StoredListed, SubsSound;
    if j.calls[c].held {
      var e := R.Settled(c, j.calls[c].taken);
      R.StepKeepsInv(max, j.push, e);
      SettleIsQuieter(max, j.push, c, j.calls[c].taken);
      QuieterSubs(j, R.Step(max, j.push, e));
      FinishedListed(j, c);
      GrownSubs(j.(push := R.Step(max, j.push, e)), j.calls[c := Finished], j.stored);
    } else {
      RephasedKeepsInv(max, j, c, Finished);
    }
  }

  lemma FinishedListed(j: Joint, c: nat)
    requires StoredListed(j.calls, j.stored) && c in j.calls && !OfDeposit(j.calls[c]) && CallsSound(j.b, j.ledger, j.births, j.calls)
    ensures StoredListed(j.calls[c := Finished], j.stored) && CallsSound(j.b, j.ledger, j.births, j.calls[c := Finished])
    ensures CallsGrow(j.calls, j.stored, j.calls[c := Finished], j.stored)
  {
    hide SiteSound, DepositSound;
  }

  // ---- taking for a push ----

  lemma TakenSub(max: int, j: Joint, key: P.Key, stale: set<P.Key>, t: nat)
    requires JointInv(max, j) && j.push.loop.Draining? && P.CanTake(j.push.r, key, stale) && t in j.subs
    ensures var j' := Step(max, j, PushStep(R.LoopTakes(key, stale)));
            t in j'.subs && t in j'.push.r.objects && SubSound(j'.push, j'.calls, j'.stored, |j'.births|, t, j'.subs[t])
  {
    hide L.BoxesInv, LL.BooksBalance, R.SystemInv, CallsSound, StoredListed, CollectsMatch, ToldSound, Complete;
    assert SubSound(j.push, j.calls, j.stored, |j.births|, t, j.subs[t]);
    var token := P.TokenAt(j.push.r.boxes, key);
    assert P.StandsAs(j.push.r.boxes, key, token);
    if t == token { TakenTold(j.calls, j.stored, j.subs[t]); }
  }

  lemma TakenTold(calls: map<nat, Phase>, stored: seq<nat>, m: Made)
    requires ToldSound(calls, m)
    ensures ToldSound(calls, m.(taken := |m.told|)) && (Complete(calls, stored, m) ==> Complete(calls, stored, m.(taken := |m.told|)))
  {
  }

  lemma TakesKeepsInv(max: int, j: Joint, key: P.Key, stale: set<P.Key>)
    requires JointInv(max, j) && Enabled(j, PushStep(R.LoopTakes(key, stale)))
    ensures JointInv(max, Step(max, j, PushStep(R.LoopTakes(key, stale))))
  {
    hide L.BoxesInv, LL.BooksBalance, R.SystemInv, CallsSound, StoredListed, CollectsMatch, SubSound;
    var e := PushStep(R.LoopTakes(key, stale));
    R.StepKeepsInv(max, j.push, e.p);
    forall t | t in j.subs
      ensures t in Step(max, j, e).subs && t in Step(max, j, e).push.r.objects
      ensures SubSound(Step(max, j, e).push, j.calls, j.stored, |j.births|, t, Step(max, j, e).subs[t])
    {
      TakenSub(max, j, key, stale, t);
    }
    assert Step(max, j, e).subs.Keys == j.subs.Keys;
  }

  // ---- telling ----

  /** What a telling leaves: the pruned registry with the box's own subscribers marked and given the count. */
  lemma TellingReaches(max: int, s: R.System, box: nat, pending: nat, now: Time, k: P.Key)
    requires R.SystemInv(max, s)
    ensures var s' := R.Step(max, s, R.TellDeposit(box, pending, now));
            && s'.collects == s.collects && s'.r.objects.Keys == s.r.objects.Keys
            && P.Part(s'.r.boxes, s.r.boxes)
            && (P.Standing(s'.r.boxes, k) ==>
                  var t := P.TokenAt(s'.r.boxes, k);
                  && t in s.r.objects
                  && (t in R.TokensAt(s'.r.boxes, box) <==> k.box == box)
                  && (k in s'.r.ready <==> k.box == box || k in s.r.ready)
                  && s'.r.objects[t].pending == if k.box == box then pending else s.r.objects[t].pending)
  {
    hide R.ClaimsExact, R.NamesKnown, P.Prune, P.Pending, P.KeysAt, R.TokensAt, P.Part, P.BoxesSound, P.Bounded, P.Scheduled, P.ReadyStands, R.Shrunk;
    P.PruneKeepsInv(s.r, max, now);
    R.PruneShrinks(s.r, max, now);
    var pruned := P.Prune(s.r, now);
    ShrunkParts(s.r, pruned);
    PendingKeys(pruned, box, pending);
    if P.Standing(pruned.boxes, k) { R.MarkReaches(pruned, max, box, pending, k); }
  }

  lemma ShrunkParts(r: P.Registry, r': P.Registry)
    requires R.Shrunk(r, r')
    ensures P.Part(r'.boxes, r.boxes) && r'.objects == r.objects && (forall k :: P.Standing(r'.boxes, k) ==> (k in r'.ready <==> k in r.ready))
  {
  }

  lemma PendingKeys(r: P.Registry, box: nat, pending: nat)
    ensures P.Pending(r.boxes, r.objects, box, pending).Keys == r.objects.Keys
  {
  }

  lemma TokenStands(boxes: P.Boxes, box: nat, t: nat) returns (k: P.Key)
    requires t in R.TokensAt(boxes, box)
    ensures P.StandsAs(boxes, k, t) && k.box == box
  {
    var c :| c in boxes[box].subscribers && boxes[box].subscribers[c] == t;
    k := P.Key(c, box);
  }

  lemma ToldOneMore(calls: map<nat, Phase>, c: nat, m: Made)
    requires c in calls && calls[c].Stored? && ToldSound(calls, m)
    ensures ToldSound(calls[c := Told(calls[c].deposit)], m)
    ensures calls[c].deposit.site.box == m.key.box ==> ToldSound(calls[c := Told(calls[c].deposit)], m.(told := m.told + [c]))
  {
  }

  lemma ToldCompletes(calls: map<nat, Phase>, stored: seq<nat>, c: nat, m: Made)
    requires c in calls && calls[c].Stored? && Complete(calls, stored, m)
    ensures calls[c].deposit.site.box == m.key.box ==>
              Complete(calls[c := Told(calls[c].deposit)], stored, m.(told := m.told + [c]))
    ensures calls[c].deposit.site.box != m.key.box ==> Complete(calls[c := Told(calls[c].deposit)], stored, m)
  {
  }

  lemma ToldSub(max: int, j: Joint, c: nat, t: nat)
    requires JointInv(max, j) && Enabled(j, TellDeposit(c)) && t in j.subs
    ensures var j' := Step(max, j, TellDeposit(c));
            t in j'.subs && t in j'.push.r.objects && SubSound(j'.push, j'.calls, j'.stored, |j'.births|, t, j'.subs[t])
  {
    hide L.BoxesInv, LL.BooksBalance, R.SystemInv, R.Step, CallsSound, StoredListed, CollectsMatch, ToldSound, Complete, R.TokensAt, P.Part, P.StandsAs, P.Standing, P.TokenAt;
    var d, m := j.calls[c].deposit, j.subs[t];
    var box := d.site.box;
    var j' := Step(max, j, TellDeposit(c));
    assert SubSound(j.push, j.calls, j.stored, |j.births|, t, m);
    TellingReaches(max, j.push, box, d.pending, d.now, m.key);
    R.PartStandsOnlyAt(j'.push.r.boxes, j.push.r.boxes, t, m.key);
    ToldOneMore(j.calls, c, m);
    ReachedIsStanding(j'.push.r.boxes, j.push.r.boxes, box, t, m.key);
    if P.StandsAs(j'.push.r.boxes, m.key, t) {
      StandsInBoth(j'.push.r.boxes, j.push.r.boxes, m.key, t);
      ToldCompletes(j.calls, j.stored, c, m);
      LastTold(j.calls, m, c);
    }
  }

  lemma StandsInBoth(boxes': P.Boxes, boxes: P.Boxes, key: P.Key, t: nat)
    requires P.Part(boxes', boxes) && P.StandsAs(boxes', key, t)
    ensures P.StandsAs(boxes, key, t) && P.Standing(boxes', key) && P.TokenAt(boxes', key) == t
  {
  }

  lemma LastTold(calls: map<nat, Phase>, m: Made, c: nat)
    requires ToldSound(calls, m) && c in calls && calls[c].Stored?
    ensures m.told != [] ==> m.told[|m.told| - 1] in calls && calls[m.told[|m.told| - 1]].Told? && m.told[|m.told| - 1] != c
  {
  }

  /** A subscription among the box's subscribers is one of that box, standing there. */
  lemma ReachedIsStanding(boxes': P.Boxes, boxes: P.Boxes, box: nat, t: nat, key: P.Key)
    requires R.StandsOnlyAt(boxes', t, key)
    ensures t in R.TokensAt(boxes', box) ==> key.box == box && P.StandsAs(boxes', key, t)
  {
    if t in R.TokensAt(boxes', box) {
      var k := TokenStands(boxes', box, t);
    }
  }

  lemma ToldCalls(j: Joint, c: nat)
    requires CallsSound(j.b, j.ledger, j.births, j.calls) && StoredListed(j.calls, j.stored) && CollectsMatch(j.calls, j.push.collects)
    requires c in j.calls && j.calls[c].Stored?
    ensures var calls' := j.calls[c := Told(j.calls[c].deposit)];
            CallsSound(j.b, j.ledger, j.births, calls') && StoredListed(calls', j.stored) && CollectsMatch(calls', j.push.collects)
  {
    hide DepositSound, SiteSound;
    assert PhaseSound(j.b, j.ledger, j.births, j.calls[c]);
  }

  lemma TellDepositKeepsInv(max: int, j: Joint, c: nat)
    requires JointInv(max, j) && Enabled(j, TellDeposit(c))
    ensures JointInv(max, Step(max, j, TellDeposit(c)))
  {
    hide L.BoxesInv, LL.BooksBalance, R.SystemInv, R.Step, SubSound, R.TokensAt, CallsSound, StoredListed, CollectsMatch;
    var d := j.calls[c].deposit;
    var j' := Step(max, j, TellDeposit(c));
    ToldCalls(j, c);
    R.StepKeepsInv(max, j.push, R.TellDeposit(d.site.box, d.pending, d.now));
    TellingReaches(max, j.push, d.site.box, d.pending, d.now, P.Key(0, 0));
    assert j'.subs.Keys == j.subs.Keys;
    forall t | t in j.subs
      ensures t in j'.push.r.objects && SubSound(j'.push, j'.calls, j'.stored, |j'.births|, t, j'.subs[t])
    {
      ToldSub(max, j, c, t);
    }
  }

  // ---- claiming ----

  lemma ClearedIsQuieter(max: int, r: P.Registry, box: nat, expire: Time, now: Time)
    requires P.RegistryInv(r, max)
    ensures Quieter(r, P.Cleared(r, box, expire, now)) && P.Cleared(r, box, expire, now).allocations == r.allocations
    ensures P.RegistryInv(P.Cleared(r, box, expire, now), max)
  {
    hide P.RegistryInv, P.Prune, P.DropBox, Quieter, R.Shrunk;
    var pruned := P.Prune(r, now);
    P.PruneKeepsInv(r, max, now);
    R.PruneShrinks(r, max, now);
    ShrunkIsQuieter(r, pruned);
    P.DropBoxKeepsInv(pruned, max, box);
    R.DropBoxShrinks(pruned, max, box);
    ShrunkIsQuieter(pruned, P.DropBox(pruned, box));
    QuieterTwice(r, pruned, P.DropBox(pruned, box));
    SameAllocations(r, box, now);
  }

  lemma SameAllocations(r: P.Registry, box: nat, now: Time)
    ensures P.Prune(r, now).allocations == P.DropBox(P.Prune(r, now), box).allocations == r.allocations
  {
  }

  /** Joining gives one new object under the key, unmarked, or changes no standing, mark or count at all. */
  ghost predicate JoinedBy(r: P.Registry, r': P.Registry, key: P.Key, outcome: P.Outcome) {
    if outcome.Claimed? && outcome.added then
      && outcome.token == r.allocations && r'.objects.Keys == r.objects.Keys + {outcome.token} && outcome.token !in r.objects
      && key !in r'.ready && P.StandsAs(r'.boxes, key, outcome.token)
      && (forall k :: P.Standing(r'.boxes, k) && k != key ==>
            && P.Standing(r.boxes, k) && P.TokenAt(r.boxes, k) in r.objects && P.TokenAt(r'.boxes, k) == P.TokenAt(r.boxes, k)
            && (k in r'.ready <==> k in r.ready)
            && r'.objects[P.TokenAt(r.boxes, k)].pending == r.objects[P.TokenAt(r.boxes, k)].pending)
    else Quieter(r, r') && (outcome.Claimed? ==> outcome.token in r.objects)
  }

  lemma JoinJoins(max: int, r: P.Registry, key: P.Key, expire: Time)
    requires P.RegistryInv(r, max)
    ensures JoinedBy(r, P.Join(r, max, key, expire).0, key, P.Join(r, max, key, expire).1)
  {
    hide P.Bounded, P.Scheduled, P.Held, P.Made, P.Standing, P.TokenAt, Quieter;
    if P.Standing(r.boxes, key) {
      StandingHasItsObject(max, r, key);
      var t := P.TokenAt(r.boxes, key);
      RewrittenIsQuieter(max, r, t, r.objects[t].(claims := r.objects[t].claims + 1));
    } else if |P.Held(r.boxes, key.connection)| < max {
      MadeJoins(max, r, key, expire);
    } else {
      QuieterItself(max, r);
    }
  }

  lemma StandingHasItsObject(max: int, r: P.Registry, key: P.Key)
    requires P.RegistryInv(r, max) && P.Standing(r.boxes, key)
    ensures P.TokenAt(r.boxes, key) in r.objects
  {
  }

  lemma MadeJoins(max: int, r: P.Registry, key: P.Key, expire: Time)
    requires P.RegistryInv(r, max) && !P.Standing(r.boxes, key)
    ensures JoinedBy(r, P.Made(r, key, expire), key, P.Claimed(r.allocations, true))
  {
    hide P.Bounded, P.Scheduled;
    var r' := P.Made(r, key, expire);
    P.MadeStands(r, key, expire, key);
    assert r.allocations !in r.objects;
    forall k | P.Standing(r'.boxes, k) && k != key
      ensures P.Standing(r.boxes, k) && P.TokenAt(r.boxes, k) in r.objects && P.TokenAt(r'.boxes, k) == P.TokenAt(r.boxes, k)
    {
      P.MadeStands(r, key, expire, k);
    }
  }

  lemma JoinedSub(r: P.Registry, push: R.System, push': R.System, key: P.Key, outcome: P.Outcome, calls: map<nat, Phase>, stored: seq<nat>, births: nat, t: nat, m: Made)
    requires Quieter(push.r, r) && JoinedBy(r, push'.r, key, outcome) && outcome.Claimed? && outcome.added
    requires t in push.r.objects && SubSound(push, calls, stored, births, t, m)
    ensures t in push'.r.objects && SubSound(push', calls, stored, births, t, m)
  {
    hide ToldSound, Complete;
    forall k | P.StandsAs(push'.r.boxes, k, t) ensures P.StandsAs(push.r.boxes, k, t) && k == m.key {
      assert k != key;
      assert P.StandsAs(r.boxes, k, t);
      assert P.StandsAs(push.r.boxes, k, t);
    }
  }

  lemma NewSub(r: P.Registry, push': R.System, key: P.Key, outcome: P.Outcome, calls: map<nat, Phase>, stored: seq<nat>, births: nat, born: nat)
    requires JoinedBy(r, push'.r, key, outcome) && outcome.Claimed? && outcome.added && born <= births
    requires forall k :: P.Standing(r.boxes, k) ==> P.TokenAt(r.boxes, k) in r.objects
    ensures outcome.token in push'.r.objects
    ensures SubSound(push', calls, stored, births, outcome.token, Made(key, born, |stored|, [], 0))
  {
  }

  lemma BeginParts(max: int, s: R.System, c: nat, key: P.Key, expire: Time, now: Time)
    requires R.SystemInv(max, s) && c !in s.collects
    ensures var cleared := P.Cleared(s.r, key.box, expire, now);
            var (r', outcome) := P.Subscribe(s.r, max, key, expire, now);
            && Quieter(s.r, cleared) && JoinedBy(cleared, r', key, outcome) && cleared.allocations == s.r.allocations
            && (forall k :: P.Standing(cleared.boxes, k) ==> P.TokenAt(cleared.boxes, k) in cleared.objects)
            && R.Step(max, s, R.Begin(c, key, expire, now)).r == r'
            && R.Step(max, s, R.Begin(c, key, expire, now)).collects
               == if outcome.Claimed? then s.collects[c := R.Collect(key, outcome.token)] else s.collects
  {
    hide P.RegistryInv, P.Cleared, P.Join, Quieter, JoinedBy, R.ClaimsExact, R.NamesKnown;
    ClearedIsQuieter(max, s.r, key.box, expire, now);
    var cleared := P.Cleared(s.r, key.box, expire, now);
    JoinJoins(max, cleared, key, expire);
    GoneIsQuieter(max, cleared, key);
    forall k | P.Standing(cleared.boxes, k) ensures P.TokenAt(cleared.boxes, k) in cleared.objects { StandingHasItsObject(max, cleared, k); }
  }

  lemma GoneIsQuieter(max: int, r: P.Registry, key: P.Key)
    requires P.RegistryInv(r, max)
    ensures JoinedBy(r, r, key, P.Gone)
  {
    hide P.RegistryInv, Quieter;
    QuieterItself(max, r);
  }

  lemma BeginKeepsSubs(max: int, j: Joint, c: nat)
    requires JointInv(max, j) && Enabled(j, BeginCollect(c))
    ensures SubsSound(Step(max, j, BeginCollect(c)).(calls := j.calls))
  {
    hide L.BoxesInv, LL.BooksBalance, R.SystemInv, R.Step, StoredListed, CollectsMatch, SubSound, P.Subscribe, P.Cleared, Quieter, CallsSound;
    var key, site, now := j.calls[c].key, j.calls[c].site, j.calls[c].now;
    var j' := Step(max, j, BeginCollect(c));
    BeginParts(max, j.push, c, key, site.row.expireTime, now);
    var cleared := P.Cleared(j.push.r, key.box, site.row.expireTime, now);
    var outcome := P.Subscribe(j.push.r, max, key, site.row.expireTime, now).1;
    BornInTime(j, c);
    if outcome.Claimed? && outcome.added {
      QuieterKeys(j.push.r, cleared);
      forall t | t in j.subs ensures t in j'.push.r.objects && SubSound(j'.push, j.calls, j.stored, |j.births|, t, j.subs[t]) {
        JoinedSub(cleared, j.push, j'.push, key, outcome, j.calls, j.stored, |j.births|, t, j.subs[t]);
      }
      NewSub(cleared, j'.push, key, outcome, j.calls, j.stored, |j.births|, site.born);
    } else {
      QuieterTwice(j.push.r, cleared, j'.push.r);
      QuieterSubs(j, j'.push);
    }
  }

  lemma QuieterKeys(r: P.Registry, r': P.Registry)
    requires Quieter(r, r')
    ensures r'.objects.Keys == r.objects.Keys
  {
  }

  lemma BornInTime(j: Joint, c: nat)
    requires CallsSound(j.b, j.ledger, j.births, j.calls) && c in j.calls && j.calls[c].Verified?
    ensures SiteSound(j.b, j.births, j.calls[c].site) && j.calls[c].site.born <= |j.births|
  {
    assert PhaseSound(j.b, j.ledger, j.births, j.calls[c]);
  }

  lemma BeginCalls(j: Joint, c: nat, phase: Phase, collects: map<nat, R.Collect>)
    requires CallsSound(j.b, j.ledger, j.births, j.calls) && StoredListed(j.calls, j.stored) && CollectsMatch(j.calls, j.push.collects)
    requires c in j.calls && j.calls[c].Verified? && c !in j.push.collects
    requires phase == Finished || (phase.Claimed? && phase == Claimed(j.calls[c].key, j.calls[c].site, j.calls[c].now, phase.held))
    requires Holds(phase) ==> c in collects && collects[c].key == j.calls[c].key && collects == j.push.collects[c := collects[c]]
    requires !Holds(phase) ==> collects == j.push.collects
    ensures CallsSound(j.b, j.ledger, j.births, j.calls[c := phase]) && StoredListed(j.calls[c := phase], j.stored)
    ensures CollectsMatch(j.calls[c := phase], collects) && CallsGrow(j.calls, j.stored, j.calls[c := phase], j.stored)
  {
    hide DepositSound, SiteSound;
    assert PhaseSound(j.b, j.ledger, j.births, j.calls[c]);
  }

  lemma BeginKeepsInv(max: int, j: Joint, c: nat)
    requires JointInv(max, j) && Enabled(j, BeginCollect(c))
    ensures JointInv(max, Step(max, j, BeginCollect(c)))
  {
    hide L.BoxesInv, LL.BooksBalance, R.SystemInv, R.Step, CallsSound, StoredListed, CollectsMatch, SubsSound, P.Subscribe, P.Cleared, Quieter, JoinedBy, CallsGrow;
    var key, site, now := j.calls[c].key, j.calls[c].site, j.calls[c].now;
    var j' := Step(max, j, BeginCollect(c));
    R.StepKeepsInv(max, j.push, R.Begin(c, key, site.row.expireTime, now));
    BeginParts(max, j.push, c, key, site.row.expireTime, now);
    BeginKeepsSubs(max, j, c);
    BeginCalls(j, c, j'.calls[c], j'.push.collects);
    GrownSubs(j'.(calls := j.calls), j'.calls, j'.stored);
  }

  // ---- every step and every run ----

  lemma StepKeepsInv(max: int, j: Joint, e: Event)
    requires JointInv(max, j) && Enabled(j, e)
    ensures JointInv(max, Step(max, j, e))
  {
    hide JointInv, InStore;
    match e
    case Arm(op, now) => InStoreKeepsInv(max, j, LR.Arm(op, now));
    case Sweep(now, bounds, pruned, reclaimed) => InStoreKeepsInv(max, j, LR.SweepBatch(now, bounds, pruned, reclaimed));
    case WriteDeposit(c, op, now) => WriteDepositKeepsInv(max, j, c, op, now);
    case WriteRetire(c, op, now) => WriteRetireKeepsInv(max, j, c, op, now);
    case ReadCollect(c, connection, box, now) => ReadKeepsInv(max, j, c, connection, box, now);
    case BeginCollect(c) => BeginKeepsInv(max, j, c);
    case WriteCollect(_, _, _, _) => WriteCollectKeepsInv(max, j, e);
    case SettleCollect(c) => SettleKeepsInv(max, j, c);
    case TellDeposit(c) => TellDepositKeepsInv(max, j, c);
    case TellRetire(c) => TellRetireKeepsInv(max, j, c);
    case PushStep(p) => if p.LoopTakes? { TakesKeepsInv(max, j, p.key, p.stale); } else { LoopKeepsInv(max, j, p); }
  }

  ghost function Exec(max: int, j: Joint, events: seq<Event>): Option<Joint>
    decreases |events|
  {
    if |events| == 0 then Some(j)
    else if !Enabled(j, events[0]) then None
    else Exec(max, Step(max, j, events[0]), events[1..])
  }

  lemma {:induction false} RunKeepsInv(max: int, j: Joint, events: seq<Event>)
    requires JointInv(max, j) && Exec(max, j, events).Some?
    ensures JointInv(max, Exec(max, j, events).value)
    decreases |events|
  {
    hide JointInv, Step, Enabled;
    if |events| != 0 {
      StepKeepsInv(max, j, events[0]);
      RunKeepsInv(max, Step(max, j, events[0]), events[1..]);
    }
  }
}
