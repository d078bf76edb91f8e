/**
 Runs of the push registry: subscribers coming and going, submissions publishing, and one delivery
 loop that is asleep, draining, or off the lock with one push on the wire.
 */
module SubscriptionRuns {
  import opened Common
  import opened Subscriptions

  datatype Loop = Waiting | Draining | Sending(key: SubKey, token: nat, owed: nat)

  /** Which group a subscription object was made for, the high water it started from, and how much had been published. */
  datatype Origin = Origin(group: nat, snapshot: nat, from: nat)

  datatype Stored = Stored(group: nat, record: PublishedRecord)

  /** `waking` counts publishers that have marked a subscription and not yet sent the wake-up. */
  datatype System = System(
    r: Registry, loop: Loop, signal: bool, waking: nat,
    origins: map<nat, Origin>, log: seq<Stored>, pushes: map<nat, seq<nat>>)

  datatype Event =
    | DoSubscribe(connection: nat, group: nat, readEpoch: nat, snapshot: nat, replace: bool)
    | DoUnsubscribe(connection: nat, groups: set<nat>, all: bool)
    | DoPublish(group: nat, records: seq<PublishedRecord>)
    | WakeUp
    | RendezvousWakeUp
    | LoopWakes
    | LoopTakes(key: SubKey, stale: set<SubKey>)
    | LoopSent(delivered: bool)
    | LoopSleeps

  predicate Enabled(s: System, e: Event) {
    match e
    case WakeUp => 0 < s.waking
    case LoopWakes => s.loop.Waiting? && s.signal
    case LoopTakes(key, stale) =>
      s.loop.Draining? && CanTake(s.r, key, stale) && s.r.byKey[key] in s.r.objects && s.r.byKey[key] in s.pushes
    case LoopSent(_) => s.loop.Sending?
    case LoopSleeps => s.loop.Draining? && forall k :: k in s.r.ready ==> k !in s.r.byKey
    case _ => true
  }

  function Entries(group: nat, records: seq<PublishedRecord>): seq<Stored> {
    seq(|records|, i requires 0 <= i < |records| => Stored(group, records[i]))
  }

  function Remember(s: System, r': Registry, group: nat, snapshot: nat): System {
    if r'.allocations == s.r.allocations then s.(r := r')
    else s.(r := r', origins := s.origins[s.r.allocations := Origin(group, snapshot, |s.log|)], pushes := s.pushes[s.r.allocations := []])
  }

  function Step(max: int, s: System, e: Event): System
    requires Enabled(s, e)
  {
    match e
    case DoSubscribe(connection, group, readEpoch, snapshot, replace) =>
      Remember(s, Subscribe(s.r, max, connection, group, readEpoch, snapshot, replace).0, group, snapshot)
    case DoUnsubscribe(connection, groups, all) => s.(r := Unsubscribe(s.r, connection, groups, all))
    case DoPublish(group, records) =>
      var r' := Publish(s.r, group, records);
      s.(r := r', log := s.log + Entries(group, records),
         waking := if records != [] && DueKeys(r', group) != {} then s.waking + 1 else s.waking)
    case WakeUp => s.(waking := s.waking - 1, signal := true)
    case RendezvousWakeUp => s.(signal := true)
    case LoopWakes => s.(signal := false, loop := Draining)
    case LoopTakes(key, stale) =>
      var token := s.r.byKey[key];
      var owed := s.r.objects[token].owed;
      s.(r := Take(s.r, key, stale), loop := Sending(key, token, owed), pushes := s.pushes[token := s.pushes[token] + [owed]])
    case LoopSent(delivered) => s.(r := Sent(s.r, s.loop.key, s.loop.token, s.loop.owed, delivered), loop := Draining)
    case LoopSleeps => s.(r := s.r.(ready := {}), loop := Waiting)
  }

  // ---- what every reachable system satisfies ----

  /** Whoever is owed a push is marked ready, or is the object on the wire. */
  ghost predicate NoneLost(r: Registry, loop: Loop) {
    forall k :: k in r.byKey && Due(r.objects, r.byKey[k]) ==> k in r.ready || (loop.Sending? && loop.token == r.byKey[k])
  }

  /** While anything is marked ready, the loop is running or is going to be woken. */
  ghost predicate WillWake(s: System) {
    s.r.ready != {} ==> !s.loop.Waiting? || s.signal || 0 < s.waking
  }

  ghost predicate FlightSound(r: Registry, loop: Loop) {
    loop.Sending? ==>
      && loop.token in r.objects && loop.owed <= r.objects[loop.token].owed
      && (forall k :: k in r.byKey && r.byKey[k] == loop.token ==> k == loop.key)
  }

  /** A record a subscription is to hear of: of its group, at or below its ceiling, published since it was made. */
  ghost predicate Concerns(log: seq<Stored>, i: int, origin: Origin, readEpoch: nat) {
    origin.from <= i < |log| && log[i].group == origin.group && log[i].record.epoch <= readEpoch
  }

  /** A high water a subscriber may be told: its own snapshot, or a record it is to hear of. */
  ghost predicate MayTell(log: seq<Stored>, origin: Origin, readEpoch: nat, value: nat) {
    value == origin.snapshot || exists i :: Concerns(log, i, origin, readEpoch) && log[i].record.recordId == value
  }

  /** What a subscription is owed covers every record it is to hear of. */
  ghost predicate Covers(log: seq<Stored>, origin: Origin, sub: Sub) {
    origin.snapshot <= sub.owed && forall i :: Concerns(log, i, origin, sub.readEpoch) ==> log[i].record.recordId <= sub.owed
  }

  ghost predicate Sorted(values: seq<nat>) {
    forall i, j :: 0 <= i < j < |values| ==> values[i] <= values[j]
  }

  ghost predicate ToldSound(log: seq<Stored>, origin: Origin, sub: Sub, told: seq<nat>) {
    && origin.from <= |log| && origin.snapshot <= sub.owed
    && MayTell(log, origin, sub.readEpoch, sub.owed)
    && (sub.notified == origin.snapshot || sub.notified in told)
    && Sorted(told)
    && (forall i :: 0 <= i < |told| ==> origin.snapshot <= told[i] <= sub.owed && MayTell(log, origin, sub.readEpoch, told[i]))
  }

  ghost predicate HistorySound(s: System) {
    && s.origins.Keys == s.r.objects.Keys == s.pushes.Keys
    && (forall k :: k in s.r.byKey && s.r.byKey[k] in s.origins ==> s.origins[s.r.byKey[k]].group == k.group)
    && (s.loop.Sending? ==> s.loop.token in s.pushes && s.loop.owed in s.pushes[s.loop.token])
    && (forall t :: t in s.r.objects ==> ToldSound(s.log, s.origins[t], s.r.objects[t], s.pushes[t]))
  }

  ghost predicate StandingCovered(s: System) {
    forall k :: k in s.r.byKey && s.r.byKey[k] in s.r.objects && s.r.byKey[k] in s.origins ==>
                  Covers(s.log, s.origins[s.r.byKey[k]], s.r.objects[s.r.byKey[k]])
  }

  ghost predicate SystemInv(max: int, s: System) {
    RegistryInv(s.r, max) && NoneLost(s.r, s.loop) && WillWake(s) && FlightSound(s.r, s.loop) && HistorySound(s) && StandingCovered(s)
  }

  // ---- subscribing and cancelling ----

  /** Fewer keys, nothing else changed. */
  ghost predicate Cancelled(r: Registry, r': Registry) {
    && r'.objects == r.objects && r'.allocations == r.allocations && r'.ready == r.ready
    && (forall k :: k in r'.byKey ==> k in r.byKey && r'.byKey[k] == r.byKey[k])
  }

  lemma CancelKeepsInv(max: int, s: System, r': Registry)
    requires SystemInv(max, s) && Cancelled(s.r, r') && RegistryInv(r', max)
    ensures SystemInv(max, s.(r := r'))
  {
    hide RegistryInv, ToldSound, Covers;
  }

  lemma UnsubscribeCancels(r: Registry, connection: nat, groups: set<nat>, all: bool)
    ensures Cancelled(r, Unsubscribe(r, connection, groups, all))
  {
  }

  lemma UnsubscribeKeepsInv(max: int, s: System, connection: nat, groups: set<nat>, all: bool)
    requires SystemInv(max, s)
    ensures SystemInv(max, s.(r := Unsubscribe(s.r, connection, groups, all)))
  {
    hide SystemInv, RegistryInv, Cancelled, WithoutGroups, WithoutConnection;
    RegistryOf(max, s);
    UnsubscribeCancels(s.r, connection, groups, all);
    if all { WithoutConnectionKeepsInv(s.r, max, connection); } else { WithoutGroupsKeepsInv(s.r, max, connection, groups); }
    CancelKeepsInv(max, s, Unsubscribe(s.r, connection, groups, all));
  }

  lemma RegistryOf(max: int, s: System)
    requires SystemInv(max, s)
    ensures RegistryInv(s.r, max)
  {
  }

  lemma NextIsNew(max: int, s: System)
    requires SystemInv(max, s)
    ensures HistorySound(s) && StandingCovered(s)
    ensures s.r.allocations !in s.r.objects && (forall k :: k in s.r.byKey ==> s.r.byKey[k] in s.r.objects)
    ensures s.loop.Sending? ==> s.loop.token != s.r.allocations
  {
    hide IndexesAgree, ToldSound, Covers, NoneLost, WillWake;
  }

  lemma AddKeepsHistory(max: int, s: System, connection: nat, group: nat, readEpoch: nat, snapshot: nat)
    requires SystemInv(max, s)
    ensures HistorySound(Remember(s, Added(s.r, connection, group, Sub(readEpoch, snapshot, snapshot)), group, snapshot))
  {
    hide SystemInv, ToldSound, StandingCovered;
    NextIsNew(max, s);
    FreshIsSound(s.log, Origin(group, snapshot, |s.log|), Sub(readEpoch, snapshot, snapshot));
  }

  lemma AddKeepsCovered(max: int, s: System, connection: nat, group: nat, readEpoch: nat, snapshot: nat)
    requires SystemInv(max, s)
    ensures StandingCovered(Remember(s, Added(s.r, connection, group, Sub(readEpoch, snapshot, snapshot)), group, snapshot))
  {
    hide SystemInv, HistorySound, Covers;
    NextIsNew(max, s);
    FreshIsSound(s.log, Origin(group, snapshot, |s.log|), Sub(readEpoch, snapshot, snapshot));
  }

  lemma AddKeepsInv(max: int, s: System, connection: nat, group: nat, readEpoch: nat, snapshot: nat)
    requires SystemInv(max, s)
    requires RegistryInv(Added(s.r, connection, group, Sub(readEpoch, snapshot, snapshot)), max)
    ensures SystemInv(max, Remember(s, Added(s.r, connection, group, Sub(readEpoch, snapshot, snapshot)), group, snapshot))
  {
    hide IndexesAgree, HistorySound, StandingCovered;
    AddKeepsHistory(max, s, connection, group, readEpoch, snapshot);
    AddKeepsCovered(max, s, connection, group, readEpoch, snapshot);
  }

  lemma FreshIsSound(log: seq<Stored>, origin: Origin, sub: Sub)
    requires sub.owed == sub.notified == origin.snapshot && origin.from == |log|
    ensures ToldSound(log, origin, sub, []) && Covers(log, origin, sub)
  {
  }

  lemma SubscribeStepKeepsInv(max: int, s: System, connection: nat, group: nat, readEpoch: nat, snapshot: nat, replace: bool)
    requires SystemInv(max, s)
    ensures SystemInv(max, Step(max, s, DoSubscribe(connection, group, readEpoch, snapshot, replace)))
  {
    hide SystemInv, RegistryInv, WithoutConnection, Cancelled;
    RegistryOf(max, s);
    var s1 := if replace then s.(r := WithoutConnection(s.r, connection)) else s;
    if replace { UnsubscribeKeepsInv(max, s, connection, {}, true); }
    RegistryOf(max, s1);
    SubscribeKeepsInv(s.r, max, connection, group, readEpoch, snapshot, replace);
    ClearedAllocations(s.r, connection);
    if Subscribe(s.r, max, connection, group, readEpoch, snapshot, replace).1 {
      AddKeepsInv(max, s1, connection, group, readEpoch, snapshot);
    }
  }

  lemma ClearedAllocations(r: Registry, connection: nat)
    ensures WithoutConnection(r, connection).allocations == r.allocations
  {
  }

  // ---- publishing ----

  lemma LogGrows(log: seq<Stored>, more: seq<Stored>, origin: Origin, sub: Sub, told: seq<nat>)
    requires ToldSound(log, origin, sub, told)
    ensures ToldSound(log + more, origin, sub, told)
  {
    MayStillTell(log, more, origin, sub.readEpoch, sub.owed);
    forall i | 0 <= i < |told| ensures MayTell(log + more, origin, sub.readEpoch, told[i]) {
      MayStillTell(log, more, origin, sub.readEpoch, told[i]);
    }
  }

  lemma MayStillTell(log: seq<Stored>, more: seq<Stored>, origin: Origin, readEpoch: nat, value: nat)
    requires MayTell(log, origin, readEpoch, value)
    ensures MayTell(log + more, origin, readEpoch, value)
  {
    if value != origin.snapshot {
      var i :| Concerns(log, i, origin, readEpoch) && log[i].record.recordId == value;
      assert Concerns(log + more, i, origin, readEpoch);
    }
  }

  lemma RaisedMayTell(log: seq<Stored>, origin: Origin, sub: Sub, told: seq<nat>, records: seq<PublishedRecord>)
    requires ToldSound(log, origin, sub, told)
    ensures ToldSound(log + Entries(origin.group, records), origin, Raised(sub, records), told)
  {
    hide Raised;
    var log' := log + Entries(origin.group, records);
    LogGrows(log, Entries(origin.group, records), origin, sub, told);
    var raised := Raised(sub, records);
    if raised.owed != sub.owed {
      var i :| 0 <= i < |records| && records[i].recordId == raised.owed && records[i].epoch <= sub.readEpoch;
      assert Concerns(log', |log| + i, origin, sub.readEpoch);
    }
  }

  lemma RaisedCovers(log: seq<Stored>, origin: Origin, sub: Sub, records: seq<PublishedRecord>)
    requires Covers(log, origin, sub)
    ensures Covers(log + Entries(origin.group, records), origin, Raised(sub, records))
  {
    hide Raised;
    var log' := log + Entries(origin.group, records);
    var raised := Raised(sub, records);
    forall i | Concerns(log', i, origin, raised.readEpoch) ensures log'[i].record.recordId <= raised.owed {
      if i < |log| {
        assert Concerns(log, i, origin, sub.readEpoch);
      } else {
        assert log'[i] == Stored(origin.group, records[i - |log|]);
      }
    }
  }

  lemma OthersCover(log: seq<Stored>, origin: Origin, sub: Sub, group: nat, records: seq<PublishedRecord>)
    requires Covers(log, origin, sub) && group != origin.group
    ensures Covers(log + Entries(group, records), origin, sub)
  {
    var log' := log + Entries(group, records);
    forall i | Concerns(log', i, origin, sub.readEpoch) ensures log'[i].record.recordId <= sub.owed {
      assert i < |log|;
      assert Concerns(log, i, origin, sub.readEpoch);
    }
  }

  lemma PublishCovers(max: int, s: System, group: nat, records: seq<PublishedRecord>)
    requires SystemInv(max, s) && records != []
    ensures StandingCovered(Step(max, s, DoPublish(group, records)))
  {
    hide Raised, ToldSound, IndexesAgree, NoneLost, FlightSound, Covers, Entries;
    var s' := Step(max, s, DoPublish(group, records));
    forall k | k in s'.r.byKey ensures Covers(s'.log, s'.origins[s'.r.byKey[k]], s'.r.objects[s'.r.byKey[k]]) {
      var t := s.r.byKey[k];
      if k.group == group {
        assert t in StandingFor(s.r, group);
        RaisedCovers(s.log, s.origins[t], s.r.objects[t], records);
      } else {
        assert t !in StandingFor(s.r, group);
        OthersCover(s.log, s.origins[t], s.r.objects[t], group, records);
      }
    }
  }

  lemma PublishKeepsHistory(max: int, s: System, group: nat, records: seq<PublishedRecord>)
    requires SystemInv(max, s) && records != []
    ensures HistorySound(Step(max, s, DoPublish(group, records)))
  {
    hide Raised, ToldSound, IndexesAgree, NoneLost, FlightSound, Covers, Entries;
    var s' := Step(max, s, DoPublish(group, records));
    forall t | t in s'.r.objects ensures ToldSound(s'.log, s'.origins[t], s'.r.objects[t], s'.pushes[t]) {
      if t in StandingFor(s.r, group) {
        RaisedMayTell(s.log, s.origins[t], s.r.objects[t], s.pushes[t], records);
      } else {
        LogGrows(s.log, Entries(group, records), s.origins[t], s.r.objects[t], s.pushes[t]);
      }
    }
  }

  lemma PublishLosesNone(max: int, s: System, group: nat, records: seq<PublishedRecord>)
    requires SystemInv(max, s) && records != []
    ensures var s' := Step(max, s, DoPublish(group, records));
            NoneLost(s'.r, s'.loop) && FlightSound(s'.r, s'.loop) && WillWake(s')
  {
    hide Raised, IndexesAgree, HistorySound, StandingCovered, Entries;
    var s' := Step(max, s, DoPublish(group, records));
    forall k | k in s'.r.byKey && Due(s'.r.objects, s'.r.byKey[k])
      ensures k in s'.r.ready || (s.loop.Sending? && s.loop.token == s'.r.byKey[k])
    {
      if k.group != group {
        assert s.r.byKey[k] !in StandingFor(s.r, group);
        assert s'.r.objects[s.r.byKey[k]] == s.r.objects[s.r.byKey[k]];
      }
    }
  }

  lemma PublishStepKeepsInv(max: int, s: System, group: nat, records: seq<PublishedRecord>)
    requires SystemInv(max, s)
    ensures SystemInv(max, Step(max, s, DoPublish(group, records)))
  {
    hide RegistryInv, NoneLost, FlightSound, WillWake, HistorySound, StandingCovered, RaisedObjects, DueKeys;
    if records == [] {
      assert s.log + Entries(group, records) == s.log;
      assert Step(max, s, DoPublish(group, records)) == s;
    } else {
      PublishKeepsInv(s.r, max, group, records);
      PublishLosesNone(max, s, group, records);
      PublishKeepsHistory(max, s, group, records);
      PublishCovers(max, s, group, records);
    }
  }

  // ---- the delivery loop ----

  lemma ToldOneMore(log: seq<Stored>, origin: Origin, sub: Sub, told: seq<nat>)
    requires ToldSound(log, origin, sub, told)
    ensures ToldSound(log, origin, sub, told + [sub.owed])
  {
    hide MayTell;
  }

  lemma TakeKeepsHistory(max: int, s: System, key: SubKey, stale: set<SubKey>)
    requires SystemInv(max, s) && Enabled(s, LoopTakes(key, stale))
    ensures HistorySound(Step(max, s, LoopTakes(key, stale)))
  {
    hide IndexesAgree, NoneLost, FlightSound, ToldSound, Covers;
    var token := s.r.byKey[key];
    ToldOneMore(s.log, s.origins[token], s.r.objects[token], s.pushes[token]);
  }

  lemma TakeKeepsInv(max: int, s: System, key: SubKey, stale: set<SubKey>)
    requires SystemInv(max, s) && Enabled(s, LoopTakes(key, stale))
    ensures SystemInv(max, Step(max, s, LoopTakes(key, stale)))
  {
    hide IndexesAgree, HistorySound, Covers;
    TakeKeepsHistory(max, s, key, stale);
  }

  lemma ToldNow(log: seq<Stored>, origin: Origin, sub: Sub, told: seq<nat>, owed: nat)
    requires ToldSound(log, origin, sub, told) && owed in told
    ensures ToldSound(log, origin, sub.(notified := owed), told)
    ensures Covers(log, origin, sub) ==> Covers(log, origin, sub.(notified := owed))
  {
    hide MayTell;
  }

  lemma DeliveredKeepsHistory(max: int, s: System)
    requires SystemInv(max, s) && s.loop.Sending?
    ensures HistorySound(Step(max, s, LoopSent(true))) && StandingCovered(Step(max, s, LoopSent(true)))
  {
    hide IndexesAgree, NoneLost, ToldSound, Covers;
    var t := s.loop.token;
    ToldNow(s.log, s.origins[t], s.r.objects[t], s.pushes[t], s.loop.owed);
  }

  lemma DeliveredKeepsInv(max: int, s: System)
    requires SystemInv(max, s) && s.loop.Sending?
    ensures SystemInv(max, Step(max, s, LoopSent(true)))
  {
    hide IndexesAgree, HistorySound, StandingCovered;
    DeliveredKeepsHistory(max, s);
  }

  /** With the object that was on the wire gone or settled, the loop may drain on. */
  lemma LandedKeepsInv(max: int, s: System)
    requires SystemInv(max, s) && s.loop.Sending?
    requires forall k :: k in s.r.byKey ==> s.r.byKey[k] != s.loop.token
    ensures SystemInv(max, s.(loop := Draining))
  {
    hide RegistryInv, ToldSound, Covers;
  }

  lemma RefusedKeepsInv(max: int, s: System)
    requires SystemInv(max, s) && s.loop.Sending?
    ensures SystemInv(max, Step(max, s, LoopSent(false)))
  {
    hide SystemInv, RegistryInv;
    var key, token := s.loop.key, s.loop.token;
    RegistryOf(max, s);
    FlightOf(max, s);
    if key in s.r.byKey && s.r.byKey[key] == token && token in s.r.objects {
      var s1 := s.(r := Unsubscribe(s.r, key.connection, {key.group}, false));
      UnsubscribeKeepsInv(max, s, key.connection, {key.group}, false);
      assert key in KeysFor(key.connection, {key.group});
      UnsubscribeCancels(s.r, key.connection, {key.group}, false);
      LandedKeepsInv(max, s1);
    } else {
      LandedKeepsInv(max, s);
    }
  }

  lemma FlightOf(max: int, s: System)
    requires SystemInv(max, s)
    ensures FlightSound(s.r, s.loop)
  {
  }

  lemma QuietLoopKeepsInv(max: int, s: System, e: Event)
    requires SystemInv(max, s) && Enabled(s, e) && (e.WakeUp? || e.RendezvousWakeUp? || e.LoopWakes? || e.LoopSleeps?)
    ensures SystemInv(max, Step(max, s, e))
  {
    hide ToldSound, IndexesAgree, Covers;
  }

  /** Every step keeps it all: no owed push is lost, nobody is told more than they may read. */
  lemma StepKeepsInv(max: int, s: System, e: Event)
    requires SystemInv(max, s) && Enabled(s, e)
    ensures SystemInv(max, Step(max, s, e))
  {
    match e
    case DoSubscribe(connection, group, readEpoch, snapshot, replace) =>
      SubscribeStepKeepsInv(max, s, connection, group, readEpoch, snapshot, replace);
    case DoUnsubscribe(connection, groups, all) => UnsubscribeKeepsInv(max, s, connection, groups, all);
    case DoPublish(group, records) => PublishStepKeepsInv(max, s, group, records);
    case LoopTakes(key, stale) => TakeKeepsInv(max, s, key, stale);
    case LoopSent(delivered) => if delivered { DeliveredKeepsInv(max, s); } else { RefusedKeepsInv(max, s); }
    case _ => QuietLoopKeepsInv(max, s, e);
  }

  function Exec(max: int, s: System, events: seq<Event>): Option<System>
    decreases |events|
  {
    if |events| == 0 then Some(s)
    else if !Enabled(s, events[0]) then None
    else Exec(max, Step(max, s, events[0]), events[1..])
  }

  const EMPTY := System(Registry(map[], map[], {}, map[], 0), Waiting, false, 0, map[], [], map[])

  lemma {:induction false} RunKeepsInv(max: int, s: System, events: seq<Event>)
    requires SystemInv(max, s) && Exec(max, s, events).Some?
    ensures SystemInv(max, Exec(max, s, events).value)
    decreases |events|
  {
    hide SystemInv, Step, Enabled;
    if |events| != 0 {
      StepKeepsInv(max, s, events[0]);
      RunKeepsInv(max, Step(max, s, events[0]), events[1..]);
    }
  }

  lemma EveryRunKeepsInv(max: int, events: seq<Event>)
    requires Exec(max, EMPTY, events).Some?
    ensures SystemInv(max, Exec(max, EMPTY, events).value)
  {
    hide Exec;
    RunKeepsInv(max, EMPTY, events);
  }

  /** In every run, both indexes agree and no connection passes its bound. */
  lemma IndexesAgreeInEveryRun(max: int, events: seq<Event>)
    requires Exec(max, EMPTY, events).Some?
    ensures var r := Exec(max, EMPTY, events).value.r; IndexesAgree(r.byKey, r.byConnection, max)
  {
    hide Exec;
    EveryRunKeepsInv(max, events);
  }

  /**
   In every run from an empty registry, a standing subscription is owed exactly the highest of its
   snapshot and the records published to its group since, at or below its ceiling; and whoever has
   been told less is marked ready or on the wire, with the loop running or about to be woken.
   */
  lemma NoPushIsLost(max: int, events: seq<Event>, key: SubKey)
    requires Exec(max, EMPTY, events).Some? && key in Exec(max, EMPTY, events).value.r.byKey
    ensures var s := Exec(max, EMPTY, events).value;
            var t := s.r.byKey[key];
            && t in s.r.objects && t in s.origins && s.origins[t].group == key.group
            && (var sub := s.r.objects[t];
                && MayTell(s.log, s.origins[t], sub.readEpoch, sub.owed) && Covers(s.log, s.origins[t], sub)
                && (sub.notified < sub.owed ==>
                      && (key in s.r.ready || (s.loop.Sending? && s.loop.token == t))
                      && (!s.loop.Waiting? || s.signal || 0 < s.waking)))
  {
    hide Exec, IndexesAgree;
    EveryRunKeepsInv(max, events);
    var s := Exec(max, EMPTY, events).value;
    assert ToldSound(s.log, s.origins[s.r.byKey[key]], s.r.objects[s.r.byKey[key]], s.pushes[s.r.byKey[key]]);
  }

  /** What any one subscription object is told over a whole run never decreases and never comes from above its ceiling. */
  lemma PushesOnlyRise(max: int, events: seq<Event>, t: nat)
    requires Exec(max, EMPTY, events).Some? && t in Exec(max, EMPTY, events).value.pushes
    ensures var s := Exec(max, EMPTY, events).value;
            && t in s.r.objects && t in s.origins && Sorted(s.pushes[t])
            && forall i :: 0 <= i < |s.pushes[t]| ==> MayTell(s.log, s.origins[t], s.r.objects[t].readEpoch, s.pushes[t][i])
  {
    hide Exec, IndexesAgree, MayTell;
    EveryRunKeepsInv(max, events);
    var s := Exec(max, EMPTY, events).value;
    assert ToldSound(s.log, s.origins[t], s.r.objects[t], s.pushes[t]);
  }

  /**
   Once the loop sleeps with no wake-up on its way, every standing subscription's last push, or its
   snapshot when it has had none, covers every record it was to hear of.
   */
  lemma QuietMeansTold(max: int, events: seq<Event>, key: SubKey, i: nat)
    requires Exec(max, EMPTY, events).Some? && key in Exec(max, EMPTY, events).value.r.byKey
    requires var s := Exec(max, EMPTY, events).value; s.loop.Waiting? && !s.signal && s.waking == 0
    ensures var s := Exec(max, EMPTY, events).value;
            var t := s.r.byKey[key];
            && t in s.r.objects && t in s.origins && t in s.pushes
            && (Concerns(s.log, i, s.origins[t], s.r.objects[t].readEpoch) ==>
                  var last := if s.pushes[t] == [] then s.origins[t].snapshot else s.pushes[t][|s.pushes[t]| - 1];
                  s.log[i].record.recordId <= last)
  {
    hide Exec, IndexesAgree, MayTell;
    EveryRunKeepsInv(max, events);
    var s := Exec(max, EMPTY, events).value;
    var t := s.r.byKey[key];
    assert ToldSound(s.log, s.origins[t], s.r.objects[t], s.pushes[t]);
    assert !Due(s.r.objects, t);
    assert Covers(s.log, s.origins[t], s.r.objects[t]);
  }
}
