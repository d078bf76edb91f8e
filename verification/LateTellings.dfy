/**
 Three runs, step by step, in which the registry hears of the store out of turn: two deposits told in the
 other order, one told and gone before the next is told, and a retire told after its box was swept and
 its id registered again.
 */
module LateTellings {
  import opened Common
  import opened Records
  import opened BoxesAndPush
  import opened DepositPushes
  import L = LinkBoxes
  import LR = LinkBoxRuns
  import LL = LinkBoxLedger
  import LV = LinkBoxLives
  import P = RendezvousPush
  import R = RendezvousRuns
  import RT = RendezvousTheorems

  ghost predicate Leads(j: Joint, e: Event, j': Joint) {
    Enabled(j, e) && Step(32, j, e) == j'
  }

  ghost predicate Reaches(events: seq<Event>, j: Joint) {
    Exec(32, START, events) == Some(j)
  }

  lemma {:induction false} LeadsOn(j: Joint, events: seq<Event>, j': Joint, e: Event, j'': Joint)
    requires Exec(32, j, events) == Some(j') && Leads(j', e, j'')
    ensures Exec(32, j, events + [e]) == Some(j'')
    decreases |events|
  {
    hide Enabled, Step;
    if |events| == 0 {
      assert [e][1..] == [];
      assert Exec(32, j'', []) == Some(j'');
      assert events + [e] == [e];
    } else {
      LeadsOn(Step(32, j, events[0]), events[1..], j', e, j'');
      assert (events + [e])[1..] == events[1..] + [e];
    }
  }

  lemma Then(events: seq<Event>, j: Joint, e: Event, j': Joint)
    requires Reaches(events, j) && Leads(j, e, j')
    ensures Reaches(events + [e], j')
  {
    hide Exec, Leads;
    LeadsOn(START, events, j, e, j');
  }

  // ---- one box, subscribed to ----

  const KEY := P.Key(0, 0)
  const NO_BOOKS := LL.Tally(0, 0, 0, 0, 0, 0)

  predicate WellShaped(registration: L.Registration) {
    L.ShapeError(LV.Registering(0, registration)).None?
  }

  /** The registry while connection 0 holds one subscription to box 0, expiring at `expire`. */
  function Held(expire: Time, ready: set<P.Key>, sub: P.Sub): P.Registry {
    P.Registry(map[0 := P.Box(expire, map[0 := 0])], ready, {P.Entry(expire, 0)}, map[0 := sub], 1)
  }

  function Listening(expire: Time, ready: set<P.Key>, sub: P.Sub, collects: map<nat, R.Collect>, kept: set<nat>, owing: set<nat>, waking: nat): R.System {
    R.System(Held(expire, ready, sub), collects, kept, owing, R.Waiting, false, waking)
  }

  lemma RegisterLeads(registration: L.Registration, j: Joint, t: Time)
    requires WellShaped(registration) && L.LinkBoxTime(t) == t && j.b == LV.NOTHING && j.ledger == map[]
    ensures Leads(j, Arm(LV.Registering(0, registration), t),
                  j.(b := LV.OneBox(0, registration, t), ledger := map[0 := NO_BOOKS], births := j.births + [0]))
  {
    LV.LifeBegins(0, registration, t, map[]);
  }

  /** A Collect on box 0 with nothing else in the registry: it reads, makes the subscription, writes and keeps it. */
  lemma CollectLeads(registration: L.Registration, j: Joint, c: nat, t: Time)
    requires WellShaped(registration) && L.LinkBoxTime(t) == t && 0 < |j.births|
    requires j.b == LV.OneBox(0, registration, t) && j.ledger == map[0 := NO_BOOKS] && j.push == RT.EMPTY && j.subs == map[]
    requires c !in j.calls
    ensures var site := Site(0, |j.births|, j.b.rows[0]);
            var read := j.(calls := j.calls[c := Verified(KEY, site, t)]);
            var begun := j.(calls := j.calls[c := Claimed(KEY, site, t, true)],
                            push := Listening(t + 1000, {}, P.Sub(1, false, 0), map[c := R.Collect(KEY, 0)], {}, {}, 0),
                            subs := map[0 := Made(KEY, |j.births|, |j.stored|, [], 0)]);
            && Leads(j, ReadCollect(c, 0, 0, t), read) && Leads(read, BeginCollect(c), begun)
  {
    var site := Site(0, |j.births|, j.b.rows[0]);
    assert P.Cleared(RT.EMPTY.r, 0, t + 1000, t) == RT.EMPTY.r;
    assert P.Held(map[], 0) == {};
  }

  lemma WriteLeads(registration: L.Registration, j: Joint, c: nat, t: Time)
    requires WellShaped(registration) && L.LinkBoxTime(t) == t
    requires j.b == LV.OneBox(0, registration, t) && j.ledger == map[0 := NO_BOOKS]
    requires c in j.calls && j.calls[c] == Claimed(KEY, Site(0, |j.births|, j.b.rows[0]), t, true)
    ensures Leads(j, WriteCollect(c, 0, 0, 0), j.(calls := j.calls[c := Written(KEY, true, true)]))
  {
    var op := L.Collect(0, registration.collectPub, 0, 0, 0);
    assert L.After(L.Standing(j.b, 0), 0) == [];
    assert L.Step(j.b, op, t).0 == j.b;
    assert LL.Acknowledged([], 0) == 0;
    assert LL.BookArm(j.ledger, j.b, op, t) == j.ledger;
    assert j.births + [] == j.births;
  }

  lemma SettleLeads(j: Joint, c: nat, expire: Time)
    requires c in j.calls && j.calls[c] == Written(KEY, true, true)
    requires j.push == Listening(expire, {}, P.Sub(1, false, 0), map[c := R.Collect(KEY, 0)], {}, {}, 0)
    ensures Leads(j, SettleCollect(c), j.(calls := j.calls[c := Finished], push := Listening(expire, {}, P.Sub(0, true, 0), map[], {0}, {}, 0)))
  {
    assert map[c := R.Collect(KEY, 0)] - {c} == map[];
  }

  /** The whole Collect. */
  lemma Subscribes(registration: L.Registration, events: seq<Event>, j: Joint, c: nat, t: Time)
    requires Reaches(events, j) && WellShaped(registration) && L.LinkBoxTime(t) == t && 0 < |j.births| && c !in j.calls
    requires j.b == LV.OneBox(0, registration, t) && j.ledger == map[0 := NO_BOOKS] && j.push == RT.EMPTY && j.subs == map[]
    ensures Reaches(events + [ReadCollect(c, 0, 0, t), BeginCollect(c), WriteCollect(c, 0, 0, 0), SettleCollect(c)],
                    j.(calls := j.calls[c := Finished], push := Listening(t + 1000, {}, P.Sub(0, true, 0), map[], {0}, {}, 0),
                       subs := map[0 := Made(KEY, |j.births|, |j.stored|, [], 0)]))
  {
    hide Reaches, Leads, WellShaped, LV.OneBox, Listening, L.LinkBoxTime;
    OneBoxRow(registration, t);
    var site := Site(0, |j.births|, j.b.rows[0]);
    var read := j.(calls := j.calls[c := Verified(KEY, site, t)]);
    var begun := j.(calls := j.calls[c := Claimed(KEY, site, t, true)],
                    push := Listening(t + 1000, {}, P.Sub(1, false, 0), map[c := R.Collect(KEY, 0)], {}, {}, 0),
                    subs := map[0 := Made(KEY, |j.births|, |j.stored|, [], 0)]);
    var written := begun.(calls := begun.calls[c := Written(KEY, true, true)]);
    var settled := written.(calls := written.calls[c := Finished], push := Listening(t + 1000, {}, P.Sub(0, true, 0), map[], {0}, {}, 0));
    CollectLeads(registration, j, c, t);
    WriteLeads(registration, begun, c, t);
    SettleLeads(written, c, t + 1000);
    Then(events, j, ReadCollect(c, 0, 0, t), read);
    Then(events + [ReadCollect(c, 0, 0, t)], read, BeginCollect(c), begun);
    Then(events + [ReadCollect(c, 0, 0, t)] + [BeginCollect(c)], begun, WriteCollect(c, 0, 0, 0), written);
    Then(events + [ReadCollect(c, 0, 0, t)] + [BeginCollect(c)] + [WriteCollect(c, 0, 0, 0)], written, SettleCollect(c), settled);
    assert events + [ReadCollect(c, 0, 0, t)] + [BeginCollect(c)] + [WriteCollect(c, 0, 0, 0)] + [SettleCollect(c)]
        == events + [ReadCollect(c, 0, 0, t), BeginCollect(c), WriteCollect(c, 0, 0, 0), SettleCollect(c)];
    assert settled.calls == j.calls[c := Finished];
  }

  lemma OneBoxRow(registration: L.Registration, t: Time)
    ensures 0 in LV.OneBox(0, registration, t).rows
  {
  }

  // ---- two deposits, told in the other order ----

  function Row(registration: L.Registration, gone: nat, waiting: nat): L.BoxRow {
    L.NewRow(registration, 0, 1000).(nextDepositId := gone + waiting + 1, depositCount := waiting)
  }

  function Books(gone: nat, waiting: nat): LL.Tally {
    NO_BOOKS.(taken := gone + waiting, acknowledged := gone)
  }

  /** Box 0 registered at 0, with these deposits waiting in it and so many acknowledged before them. */
  function Holding(registration: L.Registration, gone: nat, standing: seq<L.DepositRow>): L.Boxes {
    L.Boxes(map[0 := Row(registration, gone, |standing|)], if standing == [] then map[] else map[0 := standing])
  }

  function Deposited(n: nat, ct: Bytes, hash: Bytes): L.DepositRow {
    L.DepositRow(0, n, hash, ct, 0, 1000)
  }

  function Depositing(registration: L.Registration, ct: Bytes, hash: Bytes): L.Op {
    L.Deposit(0, registration.depositPub, ct, hash)
  }

  predicate WellShapedDeposit(registration: L.Registration, ct: Bytes, hash: Bytes) {
    L.ShapeError(Depositing(registration, ct, hash)).None?
  }

  lemma DepositTaken(registration: L.Registration, gone: nat, standing: seq<L.DepositRow>, ct: Bytes, hash: Bytes)
    requires gone + |standing| < L.LINK_BOX_DEPOSITS && L.FindHash(standing, hash, 0) == |standing|
    ensures var n, waiting := gone + |standing| + 1, |standing| + 1;
            L.TakeDeposit(Holding(registration, gone, standing), 0, ct, hash, 0)
            == (Holding(registration, gone, standing + [Deposited(n, ct, hash)]), L.Deposited(ReasonOk, n, hash, waiting, false))
  {
    hide L.FindHash;
    var b, next := Holding(registration, gone, standing), standing + [Deposited(gone + |standing| + 1, ct, hash)];
    assert L.Standing(b, 0) == standing;
    assert b.rows[0 := Row(registration, gone, |next|)] == map[0 := Row(registration, gone, |next|)];
    assert L.WithDeposits(b.deposits, 0, next) == map[0 := next];
  }

  lemma DepositSteps(registration: L.Registration, gone: nat, standing: seq<L.DepositRow>, ct: Bytes, hash: Bytes)
    requires WellShapedDeposit(registration, ct, hash) && gone + |standing| < L.LINK_BOX_DEPOSITS && L.FindHash(standing, hash, 0) == |standing|
    ensures var n, waiting := gone + |standing| + 1, |standing| + 1;
            L.Step(Holding(registration, gone, standing), Depositing(registration, ct, hash), 0)
            == (Holding(registration, gone, standing + [Deposited(n, ct, hash)]), L.Deposited(ReasonOk, n, hash, waiting, false))
  {
    hide L.FindHash, L.ShapeError, L.TakeDeposit, L.LinkBoxTime;
    TimesKept();
    DepositTaken(registration, gone, standing, ct, hash);
  }

  function Call(registration: L.Registration, gone: nat, waiting: nat): Deposit {
    Deposit(Site(0, 1, Row(registration, gone, waiting)), gone + waiting, waiting, 0, Books(gone, waiting))
  }

  lemma DepositLeads(registration: L.Registration, gone: nat, standing: seq<L.DepositRow>, j: Joint, c: nat, ct: Bytes, hash: Bytes)
    requires WellShapedDeposit(registration, ct, hash) && gone + |standing| < L.LINK_BOX_DEPOSITS && L.FindHash(standing, hash, 0) == |standing|
    requires c !in j.calls && j.b == Holding(registration, gone, standing) && j.ledger == map[0 := Books(gone, |standing|)] && |j.births| == 1
    ensures var n, waiting := gone + |standing| + 1, |standing| + 1;
            Leads(j, WriteDeposit(c, Depositing(registration, ct, hash), 0),
                  j.(b := Holding(registration, gone, standing + [Deposited(n, ct, hash)]), ledger := map[0 := Books(gone, waiting)],
                     calls := j.calls[c := Stored(Call(registration, gone, waiting))], stored := j.stored + [c]))
  {
    hide L.FindHash, L.ShapeError, L.Step;
    DepositSteps(registration, gone, standing, ct, hash);
    var waiting, op := |standing| + 1, Depositing(registration, ct, hash);
    var b' := Holding(registration, gone, standing + [Deposited(gone + waiting, ct, hash)]);
    assert LL.BookArm(j.ledger, j.b, op, 0) == map[0 := Books(gone, waiting)];
    assert j.births + [] == j.births;
    assert InStore(j, LR.Arm(op, 0)) == j.(b := b', ledger := map[0 := Books(gone, waiting)]);
  }

  lemma TellLeads(j: Joint, c: nat, d: Deposit, ready: set<P.Key>, pending: nat, owing: set<nat>, waking: nat, m: Made)
    requires c in j.calls && j.calls[c] == Stored(d) && d.site.box == 0 && d.now == 0 && ready <= {KEY} && owing <= {0}
    requires j.push == Listening(1000, ready, P.Sub(0, true, pending), map[], {0}, owing, waking) && j.subs == map[0 := m]
    ensures Leads(j, TellDeposit(c),
                  j.(push := Listening(1000, {KEY}, P.Sub(0, true, d.pending), map[], {0}, {0}, waking + 1),
                     calls := j.calls[c := Told(d)], subs := map[0 := m.(told := m.told + [c])]))
  {
    var r := Held(1000, ready, P.Sub(0, true, pending));
    assert P.Prune(r, 0) == r;
    assert P.KeysAt(r.boxes, 0) == {KEY};
    assert 0 in r.boxes[0].subscribers.Values by { assert r.boxes[0].subscribers[0] == 0; }
    assert R.TokensAt(r.boxes, 0) == {0};
    assert ready + {KEY} == {KEY} && owing + {0} == {0};
    assert P.Pending(r.boxes, r.objects, 0, d.pending) == map[0 := P.Sub(0, true, d.pending)];
  }

  const FIRST_COLLECT := [ReadCollect(1, 0, 0, 0), BeginCollect(1), WriteCollect(1, 0, 0, 0), SettleCollect(1)]

  function Reordered(registration: L.Registration, ct1: Bytes, hash1: Bytes, ct2: Bytes, hash2: Bytes): seq<Event> {
    [Arm(LV.Registering(0, registration), 0)] + FIRST_COLLECT
    + [WriteDeposit(2, Depositing(registration, ct1, hash1), 0)] + [WriteDeposit(3, Depositing(registration, ct2, hash2), 0)]
    + [TellDeposit(3)] + [TellDeposit(2)]
  }

  /** The state once the subscription is kept. */
  ghost function Kept(registration: L.Registration): Joint {
    Joint(Holding(registration, 0, []), map[0 := Books(0, 0)], [0], Listening(1000, {}, P.Sub(0, true, 0), map[], {0}, {}, 0),
          map[1 := Finished], [], map[0 := Made(KEY, 1, 0, [], 0)])
  }

  /** The state once both are stored and nothing is told. */
  ghost function Silent(registration: L.Registration, standing: seq<L.DepositRow>): Joint {
    Kept(registration).(
      b := Holding(registration, 0, standing), ledger := map[0 := Books(0, 2)],
      calls := map[1 := Finished, 2 := Stored(Call(registration, 0, 1)), 3 := Stored(Call(registration, 0, 2))], stored := [2, 3])
  }

  /** The state once both are told, the second first. */
  ghost function Misled(registration: L.Registration, standing: seq<L.DepositRow>): Joint {
    Silent(registration, standing).(
      push := Listening(1000, {KEY}, P.Sub(0, true, 1), map[], {0}, {0}, 2),
      calls := map[1 := Finished, 2 := Told(Call(registration, 0, 1)), 3 := Told(Call(registration, 0, 2))],
      subs := map[0 := Made(KEY, 1, 0, [3, 2], 0)])
  }

  lemma ReachesKept(registration: L.Registration)
    requires WellShaped(registration)
    ensures Reaches([Arm(LV.Registering(0, registration), 0)] + FIRST_COLLECT, Kept(registration))
  {
    hide Reaches, LV.OneBox, WellShaped, Listening, LV.Registering, Holding, L.LinkBoxTime;
    TimesKept();
    var j := START.(b := LV.OneBox(0, registration, 0), ledger := map[0 := NO_BOOKS], births := [0]);
    StartRegisters(registration);
    Subscribes(registration, [Arm(LV.Registering(0, registration), 0)], j, 1, 0);
    OneBoxHolds(registration);
    assert j.calls[1 := Finished] == map[1 := Finished];
  }

  lemma StartIsReached()
    ensures Reaches([], START)
  {
  }

  lemma TimesKept()
    ensures L.LinkBoxTime(0) == 0 && L.LinkBoxTime(1000) == 1000
  {
  }

  lemma StartRegisters(registration: L.Registration)
    requires WellShaped(registration)
    ensures Reaches([Arm(LV.Registering(0, registration), 0)],
                    START.(b := LV.OneBox(0, registration, 0), ledger := map[0 := NO_BOOKS], births := [0]))
  {
    hide Leads, Reaches, LV.OneBox, WellShaped, LV.Registering, L.LinkBoxTime;
    TimesKept();
    StartIsReached();
    RegisterLeads(registration, START, 0);
    var e := Arm(LV.Registering(0, registration), 0);
    assert [] + [e] == [e] && START.births + [0] == [0];
    Then([], START, e, START.(b := LV.OneBox(0, registration, 0), ledger := map[0 := NO_BOOKS], births := START.births + [0]));
  }

  lemma OneBoxHolds(registration: L.Registration)
    ensures LV.OneBox(0, registration, 0) == Holding(registration, 0, [])
  {
  }

  lemma HashesFound(ct1: Bytes, hash1: Bytes, hash2: Bytes)
    requires hash1 != hash2
    ensures L.FindHash([], hash1, 0) == 0 && L.FindHash([Deposited(1, ct1, hash1)], hash2, 0) == 1
  {
    assert L.FindHash([Deposited(1, ct1, hash1)], hash2, 1) == 1;
  }

  lemma ReachesSilent(registration: L.Registration, ct1: Bytes, hash1: Bytes, ct2: Bytes, hash2: Bytes)
    requires WellShaped(registration) && WellShapedDeposit(registration, ct1, hash1) && WellShapedDeposit(registration, ct2, hash2) && hash1 != hash2
    ensures Reaches([Arm(LV.Registering(0, registration), 0)] + FIRST_COLLECT
                    + [WriteDeposit(2, Depositing(registration, ct1, hash1), 0)] + [WriteDeposit(3, Depositing(registration, ct2, hash2), 0)],
                    Silent(registration, [Deposited(1, ct1, hash1), Deposited(2, ct2, hash2)]))
  {
    hide Reaches, Leads, WellShaped, WellShapedDeposit, LV.Registering, Listening, Holding, L.FindHash, Depositing, Deposited;
    var events, first := [Arm(LV.Registering(0, registration), 0)] + FIRST_COLLECT, Deposited(1, ct1, hash1);
    var j := Kept(registration);
    var j1 := j.(b := Holding(registration, 0, [] + [first]), ledger := map[0 := Books(0, 1)],
                 calls := j.calls[2 := Stored(Call(registration, 0, 1))], stored := j.stored + [2]);
    var j2 := j1.(b := Holding(registration, 0, [first] + [Deposited(2, ct2, hash2)]), ledger := map[0 := Books(0, 2)],
                  calls := j1.calls[3 := Stored(Call(registration, 0, 2))], stored := j1.stored + [3]);
    assert [] + [first] == [first] && [first] + [Deposited(2, ct2, hash2)] == [first, Deposited(2, ct2, hash2)];
    ReachesKept(registration);
    HashesFound(ct1, hash1, hash2);
    DepositLeads(registration, 0, [], j, 2, ct1, hash1);
    DepositLeads(registration, 0, [first], j1, 3, ct2, hash2);
    Then(events, j, WriteDeposit(2, Depositing(registration, ct1, hash1), 0), j1);
    Then(events + [WriteDeposit(2, Depositing(registration, ct1, hash1), 0)], j1, WriteDeposit(3, Depositing(registration, ct2, hash2), 0), j2);
    assert j2.stored == [2, 3];
    assert j2.calls == map[1 := Finished, 2 := Stored(Call(registration, 0, 1)), 3 := Stored(Call(registration, 0, 2))];
  }

  lemma ReachesMisled(registration: L.Registration, events: seq<Event>, standing: seq<L.DepositRow>)
    requires Reaches(events, Silent(registration, standing))
    ensures Reaches(events + [TellDeposit(3)] + [TellDeposit(2)], Misled(registration, standing))
  {
    hide Reaches, Leads, Listening, Holding;
    var j, m := Silent(registration, standing), Made(KEY, 1, 0, [], 0);
    var first, second := Call(registration, 0, 1), Call(registration, 0, 2);
    var j1 := j.(push := Listening(1000, {KEY}, P.Sub(0, true, 2), map[], {0}, {0}, 0 + 1), calls := j.calls[3 := Told(second)],
                 subs := map[0 := m.(told := m.told + [3])]);
    var m1 := m.(told := m.told + [3]);
    var j2 := j1.(push := Listening(1000, {KEY}, P.Sub(0, true, 1), map[], {0}, {0}, 1 + 1), calls := j1.calls[2 := Told(first)],
                  subs := map[0 := m1.(told := m1.told + [2])]);
    TellLeads(j, 3, second, {}, 0, {}, 0, m);
    TellLeads(j1, 2, first, {KEY}, 2, {0}, 1, m1);
    Then(events, j, TellDeposit(3), j1);
    Then(events + [TellDeposit(3)], j1, TellDeposit(2), j2);
    assert [] + [3] + [2] == [3, 2];
    assert j2.calls == map[1 := Finished, 2 := Told(first), 3 := Told(second)];
  }

  /**
   Two deposits stored one after the other, under one kept subscription, and told the other way round:
   both have been told, the box holds two, and the push the subscriber is owed carries a count of one.
   Until the first telling it is owed none at all, though both are stored.
   */
  lemma ToldOutOfOrder(registration: L.Registration, ct1: Bytes, hash1: Bytes, ct2: Bytes, hash2: Bytes)
    requires WellShaped(registration) && WellShapedDeposit(registration, ct1, hash1) && WellShapedDeposit(registration, ct2, hash2) && hash1 != hash2
    ensures var run := Reordered(registration, ct1, hash1, ct2, hash2);
            && Exec(32, START, run[..7]).Some? && Exec(32, START, run).Some?
            && var silent, j := Exec(32, START, run[..7]).value, Exec(32, START, run).value;
            && silent.stored == j.stored == [2, 3] && 0 in silent.push.kept && KEY !in silent.push.r.ready
            && 0 in j.push.kept && P.StandsAs(j.push.r.boxes, KEY, 0) && KEY in j.push.r.ready
            && j.calls.Values == {Finished, Told(Call(registration, 0, 1)), Told(Call(registration, 0, 2))}
            && 0 in j.push.r.objects && j.push.r.objects[0].pending == 1
            && 0 in j.b.rows && j.b.rows[0].depositCount == |L.Standing(j.b, 0)| == 2
  {
    hide WellShaped, WellShapedDeposit, LV.Registering, Depositing, Deposited, Exec;
    var run := Reordered(registration, ct1, hash1, ct2, hash2);
    var standing := [Deposited(1, ct1, hash1), Deposited(2, ct2, hash2)];
    ReachesSilent(registration, ct1, hash1, ct2, hash2);
    assert run[..7] == [Arm(LV.Registering(0, registration), 0)] + FIRST_COLLECT
                       + [WriteDeposit(2, Depositing(registration, ct1, hash1), 0)] + [WriteDeposit(3, Depositing(registration, ct2, hash2), 0)];
    ReachesMisled(registration, run[..7], standing);
    assert run[..7] + [TellDeposit(3)] + [TellDeposit(2)] == run;
    var calls := Misled(registration, standing).calls;
    assert calls[1] in calls.Values && calls[2] in calls.Values && calls[3] in calls.Values;
  }

  // ---- a count that is right of other deposits ----

  lemma AcknowledgeSteps(registration: L.Registration, ct: Bytes, hash: Bytes)
    requires WellShaped(registration)
    ensures var op := L.Collect(0, registration.collectPub, 0, 1, 0);
            var (b', answer) := L.Step(Holding(registration, 0, [Deposited(1, ct, hash)]), op, 0);
            && b' == Holding(registration, 1, [])
            && answer.Collected? && answer.reason == ReasonOk && answer.refused == 0
    ensures LL.Acknowledged([Deposited(1, ct, hash)], 1) == 1
  {
    hide L.LinkBoxTime;
    TimesKept();
    var b, standing := Holding(registration, 0, [Deposited(1, ct, hash)]), [Deposited(1, ct, hash)];
    assert standing[..0] == [];
    assert LL.Acknowledged([], 1) == 0 && L.After([], 1) == [];
    assert L.Standing(b, 0) == standing && L.After(standing, 1) == [];
    assert b.rows[0 := Row(registration, 1, 0)] == map[0 := Row(registration, 1, 0)];
    assert L.WithDeposits(b.deposits, 0, []) == map[];
  }

  lemma AcknowledgeLeads(registration: L.Registration, j: Joint, ct: Bytes, hash: Bytes)
    requires WellShaped(registration) && j.b == Holding(registration, 0, [Deposited(1, ct, hash)]) && j.ledger == map[0 := Books(0, 1)]
    ensures Leads(j, Arm(L.Collect(0, registration.collectPub, 0, 1, 0), 0),
                  j.(b := Holding(registration, 1, []), ledger := map[0 := Books(1, 0)]))
  {
    hide L.Step, L.ShapeError, LL.Acknowledged;
    AcknowledgeSteps(registration, ct, hash);
    assert LL.BookArm(j.ledger, j.b, L.Collect(0, registration.collectPub, 0, 1, 0), 0) == map[0 := Books(1, 0)];
    assert j.births + [] == j.births;
  }

  function Coincident(registration: L.Registration, ct1: Bytes, hash1: Bytes, ct2: Bytes, hash2: Bytes): seq<Event> {
    [Arm(LV.Registering(0, registration), 0)] + FIRST_COLLECT
    + [WriteDeposit(2, Depositing(registration, ct1, hash1), 0)] + [TellDeposit(2)]
    + [Arm(L.Collect(0, registration.collectPub, 0, 1, 0), 0)] + [WriteDeposit(3, Depositing(registration, ct2, hash2), 0)]
  }

  /** The state once the first is stored and told. */
  ghost function ToldOfOne(registration: L.Registration, first: L.DepositRow): Joint {
    Kept(registration).(
      b := Holding(registration, 0, [first]), ledger := map[0 := Books(0, 1)],
      push := Listening(1000, {KEY}, P.Sub(0, true, 1), map[], {0}, {0}, 1),
      calls := map[1 := Finished, 2 := Told(Call(registration, 0, 1))], stored := [2], subs := map[0 := Made(KEY, 1, 0, [2], 0)])
  }

  lemma ReachesToldOfOne(registration: L.Registration, ct: Bytes, hash: Bytes)
    requires WellShaped(registration) && WellShapedDeposit(registration, ct, hash)
    ensures Reaches([Arm(LV.Registering(0, registration), 0)] + FIRST_COLLECT + [WriteDeposit(2, Depositing(registration, ct, hash), 0)] + [TellDeposit(2)],
                    ToldOfOne(registration, Deposited(1, ct, hash)))
  {
    hide Reaches, Leads, WellShaped, WellShapedDeposit, LV.Registering, Listening, Holding, L.FindHash, Depositing, Deposited;
    var events, first, m := [Arm(LV.Registering(0, registration), 0)] + FIRST_COLLECT, Deposited(1, ct, hash), Made(KEY, 1, 0, [], 0);
    var j := Kept(registration);
    var j1 := j.(b := Holding(registration, 0, [] + [first]), ledger := map[0 := Books(0, 1)],
                 calls := j.calls[2 := Stored(Call(registration, 0, 1))], stored := j.stored + [2]);
    var j2 := j1.(push := Listening(1000, {KEY}, P.Sub(0, true, 1), map[], {0}, {0}, 0 + 1),
                  calls := j1.calls[2 := Told(Call(registration, 0, 1))], subs := map[0 := m.(told := m.told + [2])]);
    assert [] + [first] == [first];
    ReachesKept(registration);
    NoneFound(hash);
    DepositLeads(registration, 0, [], j, 2, ct, hash);
    TellLeads(j1, 2, Call(registration, 0, 1), {}, 0, {}, 0, m);
    Then(events, j, WriteDeposit(2, Depositing(registration, ct, hash), 0), j1);
    Then(events + [WriteDeposit(2, Depositing(registration, ct, hash), 0)], j1, TellDeposit(2), j2);
    assert j2.stored == [2] && j2.subs[0].told == [2];
    assert j2.calls == map[1 := Finished, 2 := Told(Call(registration, 0, 1))];
  }

  lemma NoneFound(hash: Bytes)
    ensures L.FindHash([], hash, 0) == 0
  {
  }

  /**
   A deposit stored and told, then acknowledged, then another stored and not told yet: the count the
   subscriber is owed is the count waiting, though it was told of neither the deposit that waits nor the
   acknowledgement. This is why the exact condition admits one stored and one gone.
   */
  lemma RightOfAnotherDeposit(registration: L.Registration, ct1: Bytes, hash1: Bytes, ct2: Bytes, hash2: Bytes)
    requires WellShaped(registration) && WellShapedDeposit(registration, ct1, hash1) && WellShapedDeposit(registration, ct2, hash2)
    ensures var run := Coincident(registration, ct1, hash1, ct2, hash2);
            && Exec(32, START, run).Some?
            && var j := Exec(32, START, run).value;
            && P.StandsAs(j.push.r.boxes, KEY, 0) && KEY in j.push.r.ready && 0 in j.subs && j.subs[0].told == [2] && j.stored == [2, 3]
            && 0 in j.push.r.objects && 0 in j.b.rows && j.push.r.objects[0].pending == j.b.rows[0].depositCount == 1
            && L.Standing(j.b, 0) == [Deposited(2, ct2, hash2)]
  {
    hide Leads, WellShaped, WellShapedDeposit, LV.Registering, L.FindHash, Depositing, Deposited, Exec;
    var events := Coincident(registration, ct1, hash1, ct2, hash2)[..7];
    var first, ack := Deposited(1, ct1, hash1), Arm(L.Collect(0, registration.collectPub, 0, 1, 0), 0);
    var j := ToldOfOne(registration, first);
    var j1 := j.(b := Holding(registration, 1, []), ledger := map[0 := Books(1, 0)]);
    var j2 := j1.(b := Holding(registration, 1, [] + [Deposited(2, ct2, hash2)]), ledger := map[0 := Books(1, 1)],
                  calls := j1.calls[3 := Stored(Call(registration, 1, 1))], stored := j1.stored + [3]);
    ReachesToldOfOne(registration, ct1, hash1);
    assert events == [Arm(LV.Registering(0, registration), 0)] + FIRST_COLLECT + [WriteDeposit(2, Depositing(registration, ct1, hash1), 0)] + [TellDeposit(2)];
    AcknowledgeLeads(registration, j, ct1, hash1);
    NoneFound(hash2);
    DepositLeads(registration, 1, [], j1, 3, ct2, hash2);
    Then(events, j, ack, j1);
    Then(events + [ack], j1, WriteDeposit(3, Depositing(registration, ct2, hash2), 0), j2);
    assert events + [ack] + [WriteDeposit(3, Depositing(registration, ct2, hash2), 0)] == Coincident(registration, ct1, hash1, ct2, hash2);
    assert [] + [Deposited(2, ct2, hash2)] == [Deposited(2, ct2, hash2)] && j2.stored == [2, 3];
  }

  // ---- a retire, told in the next life ----

  ghost function RetiredBox(registration: L.Registration): L.Boxes {
    L.Boxes(map[0 := L.NewRow(registration, 0, 1000).(retiredTime := Some(0))], map[])
  }

  lemma RetireLeads(registration: L.Registration, j: Joint, c: nat)
    requires WellShaped(registration) && c !in j.calls && j.b == LV.OneBox(0, registration, 0) && j.ledger == map[0 := NO_BOOKS]
    ensures Leads(j, WriteRetire(c, L.Retire(0, registration.collectPub), 0),
                  j.(b := RetiredBox(registration), calls := j.calls[c := Retired(Site(0, |j.births|, RetiredBox(registration).rows[0]))]))
  {
    hide L.LinkBoxTime;
    TimesKept();
    var op := L.Retire(0, registration.collectPub);
    assert j.b.deposits - {0} == map[];
    assert j.b.rows[0 := j.b.rows[0].(retiredTime := Some(0), depositCount := 0)] == RetiredBox(registration).rows;
    assert L.RetireStep(j.b, 0, registration.collectPub, 0) == (RetiredBox(registration), L.Retired(ReasonOk, 0));
    assert L.Step(j.b, op, 0) == (RetiredBox(registration), L.Retired(ReasonOk, 0));
    assert LL.BookArm(j.ledger, j.b, op, 0) == j.ledger;
    assert j.births + [] == j.births;
  }

  lemma RetiredIsSwept(registration: L.Registration)
    ensures var b := RetiredBox(registration);
            && L.SweepChooses(b, 1000, L.Bounds(1, 1), {}, {L.Due(1000, 0, 0)})
            && L.Swept(b, {}, {L.Due(1000, 0, 0)}) == LV.NOTHING
  {
    hide L.LinkBoxTime;
    TimesKept();
    var b := RetiredBox(registration);
    assert L.DueDeposits(b, 1000) == {};
    assert L.DueBox(0, b.rows[0]) in L.DueBoxes(b, 1000);
    assert L.DueBoxes(b, 1000) == {L.Due(1000, 0, 0)};
    assert L.Ids({L.Due(1000, 0, 0)}) == {0};
  }

  const SWEPT := Sweep(1000, L.Bounds(1, 1), {}, {L.Due(1000, 0, 0)})

  lemma SweepLeads(registration: L.Registration, j: Joint)
    requires j.b == RetiredBox(registration)
    ensures Leads(j, SWEPT, j.(b := LV.NOTHING, ledger := map[]))
  {
    hide L.SweepChooses, L.Swept;
    RetiredIsSwept(registration);
    assert LL.BookSweep(j.ledger, LV.NOTHING, {}) == map[];
    assert j.births + [] == j.births;
  }

  lemma TellRetireLeads(j: Joint, c: nat, site: Site)
    requires c in j.calls && j.calls[c] == Retired(site) && site.box == 0
    requires j.push == Listening(2000, {}, P.Sub(0, true, 0), map[], {0}, {}, 0)
    ensures Leads(j, TellRetire(c), j.(push := j.push.(r := j.push.r.(boxes := map[])), calls := j.calls[c := Finished]))
  {
    assert j.push.r.boxes - {0} == map[];
    assert {} - P.KeysAt(j.push.r.boxes, 0) == {};
  }

  function LateRetire(registration: L.Registration): seq<Event> {
    [Arm(LV.Registering(0, registration), 0)] + [WriteRetire(1, L.Retire(0, registration.collectPub), 0)] + [SWEPT]
    + [Arm(LV.Registering(0, registration), 1000)]
    + [ReadCollect(2, 0, 0, 1000), BeginCollect(2), WriteCollect(2, 0, 0, 0), SettleCollect(2)] + [TellRetire(1)]
  }

  /** The state once the box is in its second life, subscribed to and kept, and the first life's retire is still to tell. */
  ghost function SecondLife(registration: L.Registration): Joint {
    Joint(LV.OneBox(0, registration, 1000), map[0 := NO_BOOKS], [0, 0], Listening(2000, {}, P.Sub(0, true, 0), map[], {0}, {}, 0),
          map[1 := Retired(Site(0, 1, RetiredBox(registration).rows[0])), 2 := Finished], [], map[0 := Made(KEY, 2, 0, [], 0)])
  }

  lemma ReachesSecondLife(registration: L.Registration)
    requires WellShaped(registration)
    ensures Reaches(LateRetire(registration)[..8], SecondLife(registration))
  {
    hide Reaches, Leads, WellShaped, LV.Registering, LV.OneBox, Listening, L.LinkBoxTime, RetiredBox;
    TimesKept();
    RetiredRow(registration);
    var e, retire := Arm(LV.Registering(0, registration), 0), WriteRetire(1, L.Retire(0, registration.collectPub), 0);
    var j1 := START.(b := LV.OneBox(0, registration, 0), ledger := map[0 := NO_BOOKS], births := [0]);
    var j2 := j1.(b := RetiredBox(registration), calls := j1.calls[1 := Retired(Site(0, |j1.births|, RetiredBox(registration).rows[0]))]);
    var j3 := j2.(b := LV.NOTHING, ledger := map[]);
    var j4 := j3.(b := LV.OneBox(0, registration, 1000), ledger := map[0 := NO_BOOKS], births := j3.births + [0]);
    StartRegisters(registration);
    RetireLeads(registration, j1, 1);
    SweepLeads(registration, j2);
    RegisterLeads(registration, j3, 1000);
    Then([e], j1, retire, j2);
    Then([e] + [retire], j2, SWEPT, j3);
    Then([e] + [retire] + [SWEPT], j3, Arm(LV.Registering(0, registration), 1000), j4);
    Subscribes(registration, [e] + [retire] + [SWEPT] + [Arm(LV.Registering(0, registration), 1000)], j4, 2, 1000);
    assert LateRetire(registration)[..8] == [e] + [retire] + [SWEPT] + [Arm(LV.Registering(0, registration), 1000)]
      + [ReadCollect(2, 0, 0, 1000), BeginCollect(2), WriteCollect(2, 0, 0, 0), SettleCollect(2)];
    assert j4.births == [0, 0] && j4.calls[2 := Finished] == SecondLife(registration).calls;
  }

  lemma RetiredRow(registration: L.Registration)
    ensures 0 in RetiredBox(registration).rows && RetiredBox(registration).rows[0].retiredTime == Some(0)
  {
  }

  /**
   A box is retired, swept at its expiry and registered again before the retire is told; by then a
   subscription to the second life is kept. The telling drops it, though its box is live and was never
   retired.
   */
  lemma RetireToldInALaterLife(registration: L.Registration)
    requires WellShaped(registration)
    ensures var run := LateRetire(registration);
            && Exec(32, START, run[..8]).Some? && Exec(32, START, run).Some?
            && var before, j := Exec(32, START, run[..8]).value, Exec(32, START, run).value;
            && 0 in before.push.kept && P.StandsAs(before.push.r.boxes, KEY, 0) && !P.Standing(j.push.r.boxes, KEY)
            && 0 in before.subs && before.subs[0].born == 2
            && 1 in before.calls && before.calls[1].Retired? && before.calls[1].site.born == 1
            && j.b == before.b && 0 in j.b.rows && L.Live(j.b.rows[0], L.LinkBoxTime(1000))
  {
    hide WellShaped, LV.Registering, Exec, L.LinkBoxTime;
    TimesKept();
    var run, before := LateRetire(registration), SecondLife(registration);
    var j := before.(push := before.push.(r := before.push.r.(boxes := map[])), calls := before.calls[1 := Finished]);
    ReachesSecondLife(registration);
    TellRetireLeads(before, 1, Site(0, 1, RetiredBox(registration).rows[0]));
    Then(run[..8], before, TellRetire(1), j);
    assert run[..8] + [TellRetire(1)] == run;
  }
}
