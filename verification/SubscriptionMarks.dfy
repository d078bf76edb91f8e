/**
 When a push tells its subscriber something new. A ready mark outlives what it was set for, so the
 loop may take a subscription that has been told everything; the history of the mark says exactly when.
 */
module SubscriptionMarks {
  import opened Common
  import opened Subscriptions
  import opened SubscriptionRuns

  /**
   How a key's ready mark was last set: for which object, and whether that object's own push was on
   the wire just then carrying all it was owed.
   */
  datatype Mark = Mark(token: nat, carried: bool)

  type Marks = map<SubKey, Mark>

  predicate OnTheWire(loop: Loop, token: nat) {
    loop.Sending? && loop.token == token
  }

  function MarkNow(r: Registry, loop: Loop, key: SubKey): Mark
    requires key in r.byKey && r.byKey[key] in r.objects
  {
    var t := r.byKey[key];
    Mark(t, OnTheWire(loop, t) && r.objects[t].owed <= loop.owed)
  }

  /** The marks a step leaves: a publish sets those it finds due, a send that was overtaken sets its own. */
  function MarksAfter(max: int, s: System, marks: Marks, e: Event): Marks
    requires Enabled(s, e)
  {
    var r' := Step(max, s, e).r;
    match e
    case DoPublish(group, records) =>
      if records == [] then marks
      else marks + map k | k in DueKeys(r', group) && r'.byKey[k] in r'.objects :: MarkNow(r', s.loop, k)
    case LoopSent(delivered) =>
      var k := s.loop.key;
      if delivered && k in s.r.byKey && s.r.byKey[k] == s.loop.token && Due(r'.objects, s.loop.token)
      then marks[k := Mark(s.loop.token, false)] else marks
    case _ => marks
  }

  /** What an object will know once nothing of its own is on the wire. */
  function Known(loop: Loop, objects: map<nat, Sub>, token: nat): nat
    requires token in objects
  {
    if OnTheWire(loop, token) then loop.owed else objects[token].notified
  }

  ghost predicate MarkExact(r: Registry, loop: Loop, marks: Marks, key: SubKey)
    requires key in r.byKey && r.byKey[key] in r.objects
  {
    && key in marks && marks[key].token <= r.byKey[key]
    && (marks[key] == Mark(r.byKey[key], false) <==> Known(loop, r.objects, r.byKey[key]) < r.objects[r.byKey[key]].owed)
  }

  ghost predicate MarksExact(r: Registry, loop: Loop, marks: Marks) {
    forall k :: k in r.ready && k in r.byKey && r.byKey[k] in r.objects ==> MarkExact(r, loop, marks, k)
  }

  ghost predicate ToldIsKnown(told: seq<nat>, notified: nat, known: nat) {
    notified <= known && forall i :: 0 <= i < |told| ==> told[i] <= known
  }

  /** A standing subscription has been told nothing past what it will know. */
  ghost predicate NothingPastKnown(r: Registry, loop: Loop, pushes: map<nat, seq<nat>>) {
    forall k :: k in r.byKey && r.byKey[k] in r.objects && r.byKey[k] in pushes ==>
                  ToldIsKnown(pushes[r.byKey[k]], r.objects[r.byKey[k]].notified, Known(loop, r.objects, r.byKey[k]))
  }

  /** Every mark has a history, of an object already made, whether or not its key still stands. */
  ghost predicate MarksKnown(r: Registry, marks: Marks) {
    forall k :: k in r.ready ==> k in marks && marks[k].token < r.allocations
  }

  ghost predicate MarksInv(max: int, s: System, marks: Marks) {
    && SystemInv(max, s) && MarksKnown(s.r, marks) && MarksExact(s.r, s.loop, marks)
    && NothingPastKnown(s.r, s.loop, s.pushes)
  }

  // ---- every step keeps it ----

  /** Tokens that stood still stand under the same keys, or are new and know all they are owed. */
  ghost predicate Resubscribed(r: Registry, r': Registry) {
    && r'.ready == r.ready
    && (forall t :: t in r.objects ==> t in r'.objects && r'.objects[t] == r.objects[t])
    && (forall k :: k in r'.byKey ==> r'.byKey[k] in r'.objects)
    && (forall k :: k in r'.byKey ==>
          || (k in r.byKey && r'.byKey[k] == r.byKey[k] && r.byKey[k] in r.objects)
          || (r'.byKey[k] == r.allocations && r'.objects[r'.byKey[k]].notified == r'.objects[r'.byKey[k]].owed))
  }

  lemma SubscribeResubscribes(max: int, r: Registry, connection: nat, group: nat, readEpoch: nat, snapshot: nat, replace: bool)
    requires RegistryInv(r, max)
    ensures Resubscribed(r, Subscribe(r, max, connection, group, readEpoch, snapshot, replace).0)
  {
    hide IndexesAgree;
    assert r.allocations !in r.objects;
  }

  lemma UnsubscribeResubscribes(max: int, r: Registry, connection: nat, groups: set<nat>, all: bool)
    requires RegistryInv(r, max)
    ensures Resubscribed(r, Unsubscribe(r, connection, groups, all))
  {
    hide IndexesAgree;
  }

  /** A mark left for another object is not the new one's, and the new one is owed nothing yet. */
  lemma ResubscribedKeepsMarks(r: Registry, r': Registry, max: int, loop: Loop, marks: Marks)
    requires RegistryInv(r, max) && FlightSound(r, loop) && Resubscribed(r, r')
    requires MarksKnown(r, marks) && MarksExact(r, loop, marks)
    ensures MarksExact(r', loop, marks)
  {
    hide IndexesAgree;
    forall k | k in r'.ready && k in r'.byKey && r'.byKey[k] in r'.objects ensures MarkExact(r', loop, marks, k) {
      if k in r.byKey && r'.byKey[k] == r.byKey[k] && r.byKey[k] in r.objects { assert MarkExact(r, loop, marks, k); }
    }
  }

  lemma ResubscribedKeepsKnown(r: Registry, r': Registry, max: int, loop: Loop, pushes: map<nat, seq<nat>>, pushes': map<nat, seq<nat>>)
    requires RegistryInv(r, max) && FlightSound(r, loop) && Resubscribed(r, r') && NothingPastKnown(r, loop, pushes)
    requires r.allocations !in pushes
    requires forall t :: t in pushes' ==> (t in pushes && pushes'[t] == pushes[t]) || (t == r.allocations && pushes'[t] == [])
    ensures NothingPastKnown(r', loop, pushes')
  {
    hide IndexesAgree;
    assert r.allocations !in r.objects;
    forall k | k in r'.byKey && r'.byKey[k] in r'.objects && r'.byKey[k] in pushes'
      ensures ToldIsKnown(pushes'[r'.byKey[k]], r'.objects[r'.byKey[k]].notified, Known(loop, r'.objects, r'.byKey[k]))
    {
      if r'.byKey[k] != r.allocations { assert k in r.byKey && r.byKey[k] == r'.byKey[k]; }
    }
  }

  lemma ResubscribeStepKeepsMarks(max: int, s: System, marks: Marks, e: Event)
    requires MarksInv(max, s, marks) && (e.DoSubscribe? || e.DoUnsubscribe?)
    ensures MarksInv(max, Step(max, s, e), MarksAfter(max, s, marks, e))
  {
    hide RegistryInv, NoneLost, WillWake, FlightSound, StandingCovered, MarksExact, NothingPastKnown, Resubscribed, Subscribe, Unsubscribe, ToldSound;
    var s' := Step(max, s, e);
    StepKeepsInv(max, s, e);
    if e.DoSubscribe? {
      SubscribeResubscribes(max, s.r, e.connection, e.group, e.readEpoch, e.snapshot, e.replace);
    } else {
      UnsubscribeResubscribes(max, s.r, e.connection, e.groups, e.all);
    }
    ReadyAndCount(max, s, e);
    NewIsUntold(max, s);
    ResubscribedKeepsMarks(s.r, s'.r, max, s.loop, marks);
    ResubscribedKeepsKnown(s.r, s'.r, max, s.loop, s.pushes, s'.pushes);
  }

  lemma NewIsUntold(max: int, s: System)
    requires SystemInv(max, s)
    ensures s.r.allocations !in s.pushes
  {
  }

  lemma ReadyAndCount(max: int, s: System, e: Event)
    requires SystemInv(max, s) && (e.DoSubscribe? || e.DoUnsubscribe?)
    ensures Step(max, s, e).r.ready == s.r.ready && s.r.allocations <= Step(max, s, e).r.allocations
  {
    hide SystemInv;
  }

  // ---- publishing ----

  /** A publish raises what is owed and nothing that is known. */
  lemma PublishKeepsKnown(max: int, s: System, group: nat, records: seq<PublishedRecord>)
    requires SystemInv(max, s) && NothingPastKnown(s.r, s.loop, s.pushes)
    ensures NothingPastKnown(Publish(s.r, group, records), s.loop, s.pushes)
  {
    hide Raised, IndexesAgree, HistorySound, StandingCovered, NoneLost;
    var r' := Publish(s.r, group, records);
    forall k | k in r'.byKey && r'.byKey[k] in r'.objects && r'.byKey[k] in s.pushes
      ensures ToldIsKnown(s.pushes[r'.byKey[k]], r'.objects[r'.byKey[k]].notified, Known(s.loop, r'.objects, r'.byKey[k]))
    {
      assert r'.objects[r'.byKey[k]].notified == s.r.objects[r'.byKey[k]].notified;
    }
  }

  /** A key the publish does not set keeps its mark's truth: what it is owed has not moved. */
  lemma UnsetMarkStands(max: int, s: System, marks: Marks, group: nat, records: seq<PublishedRecord>, k: SubKey)
    requires MarksInv(max, s, marks) && records != []
    requires k in s.r.ready && k in s.r.byKey && k !in DueKeys(Publish(s.r, group, records), group)
    ensures s.r.byKey[k] in s.r.objects && Publish(s.r, group, records).objects[s.r.byKey[k]] == s.r.objects[s.r.byKey[k]]
  {
    hide Raised, IndexesAgree, HistorySound, StandingCovered, NoneLost;
    var t := s.r.byKey[k];
    if k.group != group { assert t !in StandingFor(s.r, group); }
  }

  lemma PublishKeepsExact(max: int, s: System, marks: Marks, group: nat, records: seq<PublishedRecord>)
    requires MarksInv(max, s, marks) && records != []
    ensures MarksExact(Publish(s.r, group, records), s.loop, MarksAfter(max, s, marks, DoPublish(group, records)))
  {
    hide Raised, IndexesAgree, HistorySound, StandingCovered, NoneLost, DueKeys, RaisedObjects, NothingPastKnown;
    var r', marks' := Publish(s.r, group, records), MarksAfter(max, s, marks, DoPublish(group, records));
    PublishKeepsKnown(max, s, group, records);
    PublishKeepsInv(s.r, max, group, records);
    PublishReady(s.r, group, records);
    forall k | k in r'.ready && k in r'.byKey && r'.byKey[k] in r'.objects ensures MarkExact(r', s.loop, marks', k) {
      if k in DueKeys(r', group) {
        DueOwesMore(r', group, k);
      } else {
        UnsetMarkStands(max, s, marks, group, records, k);
        assert MarkExact(s.r, s.loop, marks, k);
      }
    }
  }

  lemma PublishReady(r: Registry, group: nat, records: seq<PublishedRecord>)
    requires records != []
    ensures Publish(r, group, records).ready == r.ready + DueKeys(Publish(r, group, records), group)
  {
    hide Raised;
  }

  lemma DueOwesMore(r: Registry, group: nat, k: SubKey)
    requires k in DueKeys(r, group)
    ensures k in r.byKey && r.byKey[k] in r.objects && r.objects[r.byKey[k]].notified < r.objects[r.byKey[k]].owed
  {
  }

  lemma PublishKeepsMarks(max: int, s: System, marks: Marks, group: nat, records: seq<PublishedRecord>)
    requires MarksInv(max, s, marks)
    ensures MarksInv(max, Step(max, s, DoPublish(group, records)), MarksAfter(max, s, marks, DoPublish(group, records)))
  {
    hide SystemInv, MarksExact, NothingPastKnown, RaisedObjects;
    StepKeepsInv(max, s, DoPublish(group, records));
    PublishKeepsKnown(max, s, group, records);
    if records != [] {
      PublishKeepsExact(max, s, marks, group, records);
      TokensAreMade(max, Step(max, s, DoPublish(group, records)));
    }
  }

  lemma TokensAreMade(max: int, s: System)
    requires SystemInv(max, s)
    ensures forall k :: k in s.r.byKey ==> s.r.byKey[k] in s.r.objects && s.r.byKey[k] < s.r.allocations
  {
    hide IndexesAgree;
  }

  // ---- the loop ----

  lemma TakeKeepsMarks(max: int, s: System, marks: Marks, key: SubKey, stale: set<SubKey>)
    requires MarksInv(max, s, marks) && Enabled(s, LoopTakes(key, stale))
    ensures MarksInv(max, Step(max, s, LoopTakes(key, stale)), marks)
  {
    hide IndexesAgree, HistorySound, StandingCovered, NoneLost, WillWake;
    var e := LoopTakes(key, stale);
    var s' := Step(max, s, e);
    TakeKeepsInv(max, s, key, stale);
    var token := s.r.byKey[key];
    forall k | k in s'.r.ready && k in s'.r.byKey && s'.r.byKey[k] in s'.r.objects ensures MarkExact(s'.r, s'.loop, marks, k) {
      assert MarkExact(s.r, s.loop, marks, k);
    }
    forall k | k in s'.r.byKey && s'.r.byKey[k] in s'.r.objects && s'.r.byKey[k] in s'.pushes
      ensures ToldIsKnown(s'.pushes[s'.r.byKey[k]], s'.r.objects[s'.r.byKey[k]].notified, Known(s'.loop, s'.r.objects, s'.r.byKey[k]))
    {
      assert ToldIsKnown(s.pushes[s.r.byKey[k]], s.r.objects[s.r.byKey[k]].notified, Known(s.loop, s.r.objects, s.r.byKey[k]));
    }
  }

  lemma OnTheWireIsAhead(max: int, s: System)
    requires SystemInv(max, s) && NothingPastKnown(s.r, s.loop, s.pushes) && s.loop.Sending?
    requires s.loop.key in s.r.byKey && s.r.byKey[s.loop.key] == s.loop.token
    ensures s.r.objects[s.loop.token].notified <= s.loop.owed
  {
    hide IndexesAgree, StandingCovered, NoneLost, WillWake, ToldSound;
    assert ToldIsKnown(s.pushes[s.loop.token], s.r.objects[s.loop.token].notified, Known(s.loop, s.r.objects, s.loop.token));
  }

  lemma SentKeepsExact(max: int, s: System, marks: Marks, delivered: bool)
    requires MarksInv(max, s, marks) && s.loop.Sending?
    ensures var s' := Step(max, s, LoopSent(delivered));
            MarksExact(s'.r, s'.loop, MarksAfter(max, s, marks, LoopSent(delivered)))
  {
    hide SystemInv, MarksExact, NothingPastKnown, MarkExact;
    var s', marks' := Step(max, s, LoopSent(delivered)), MarksAfter(max, s, marks, LoopSent(delivered));
    forall k | k in s'.r.ready && k in s'.r.byKey && s'.r.byKey[k] in s'.r.objects ensures MarkExact(s'.r, s'.loop, marks', k) {
      if delivered && k == s.loop.key && s.r.byKey[k] == s.loop.token {
        DeliveredMark(max, s, marks);
      } else {
        OtherMark(max, s, marks, delivered, k);
      }
    }
    AllMarks(s', marks');
  }

  lemma AllMarks(s: System, marks: Marks)
    requires forall k :: k in s.r.ready && k in s.r.byKey && s.r.byKey[k] in s.r.objects ==> MarkExact(s.r, s.loop, marks, k)
    ensures MarksExact(s.r, s.loop, marks)
  {
  }

  /** The subscription whose push has landed: it knows what it was sent, and its mark says if more came. */
  lemma DeliveredMark(max: int, s: System, marks: Marks)
    requires MarksInv(max, s, marks) && s.loop.Sending?
    requires s.loop.key in s.r.byKey && s.r.byKey[s.loop.key] == s.loop.token
    ensures var s' := Step(max, s, LoopSent(true));
            && s.loop.token in s'.r.objects
            && (s.loop.key in s'.r.ready ==> MarkExact(s'.r, s'.loop, MarksAfter(max, s, marks, LoopSent(true)), s.loop.key))
  {
    hide IndexesAgree, HistorySound, StandingCovered, NoneLost, WillWake, NothingPastKnown;
    OnTheWireIsAhead(max, s);
    if s.loop.key in s.r.ready { assert MarkExact(s.r, s.loop, marks, s.loop.key); }
  }

  /** Every other subscription's mark, and what it knows, are untouched by the landing. */
  lemma OtherMark(max: int, s: System, marks: Marks, delivered: bool, k: SubKey)
    requires MarksInv(max, s, marks) && s.loop.Sending?
    requires k in Step(max, s, LoopSent(delivered)).r.ready && k in Step(max, s, LoopSent(delivered)).r.byKey
    requires !(delivered && k == s.loop.key && s.r.byKey[k] == s.loop.token)
    ensures var s' := Step(max, s, LoopSent(delivered));
            s'.r.byKey[k] in s'.r.objects && MarkExact(s'.r, s'.loop, MarksAfter(max, s, marks, LoopSent(delivered)), k)
  {
    hide IndexesAgree, HistorySound, StandingCovered, NoneLost, WillWake, NothingPastKnown;
    assert s.loop.key in KeysFor(s.loop.key.connection, {s.loop.key.group});
    assert MarkExact(s.r, s.loop, marks, k);
  }

  lemma SentKeepsKnown(max: int, s: System, delivered: bool)
    requires SystemInv(max, s) && NothingPastKnown(s.r, s.loop, s.pushes) && s.loop.Sending?
    ensures var s' := Step(max, s, LoopSent(delivered)); NothingPastKnown(s'.r, s'.loop, s'.pushes)
  {
    hide IndexesAgree, HistorySound, StandingCovered, NoneLost, WillWake;
    var s' := Step(max, s, LoopSent(delivered));
    forall k | k in s'.r.byKey && s'.r.byKey[k] in s'.r.objects && s'.r.byKey[k] in s'.pushes
      ensures ToldIsKnown(s'.pushes[s'.r.byKey[k]], s'.r.objects[s'.r.byKey[k]].notified, Known(s'.loop, s'.r.objects, s'.r.byKey[k]))
    {
      assert ToldIsKnown(s.pushes[s.r.byKey[k]], s.r.objects[s.r.byKey[k]].notified, Known(s.loop, s.r.objects, s.r.byKey[k]));
    }
  }

  lemma SentKeepsMarks(max: int, s: System, marks: Marks, delivered: bool)
    requires MarksInv(max, s, marks) && s.loop.Sending?
    ensures MarksInv(max, Step(max, s, LoopSent(delivered)), MarksAfter(max, s, marks, LoopSent(delivered)))
  {
    hide SystemInv, MarksExact, NothingPastKnown;
    StepKeepsInv(max, s, LoopSent(delivered));
    SentKeepsExact(max, s, marks, delivered);
    SentKeepsKnown(max, s, delivered);
    TokensAreMade(max, s);
  }

  lemma QuietKeepsMarks(max: int, s: System, marks: Marks, e: Event)
    requires MarksInv(max, s, marks) && Enabled(s, e)
    requires e.WakeUp? || e.RendezvousWakeUp? || e.LoopWakes? || e.LoopSleeps?
    ensures MarksInv(max, Step(max, s, e), marks)
  {
    hide SystemInv;
    StepKeepsInv(max, s, e);
    var s' := Step(max, s, e);
    forall k | k in s'.r.ready && k in s'.r.byKey && s'.r.byKey[k] in s'.r.objects ensures MarkExact(s'.r, s'.loop, marks, k) {
      assert MarkExact(s.r, s.loop, marks, k);
    }
  }

  lemma StepKeepsMarks(max: int, s: System, marks: Marks, e: Event)
    requires MarksInv(max, s, marks) && Enabled(s, e)
    ensures MarksInv(max, Step(max, s, e), MarksAfter(max, s, marks, e))
  {
    hide MarksInv;
    match e
    case DoSubscribe(_, _, _, _, _) => ResubscribeStepKeepsMarks(max, s, marks, e);
    case DoUnsubscribe(_, _, _) => ResubscribeStepKeepsMarks(max, s, marks, e);
    case DoPublish(group, records) => PublishKeepsMarks(max, s, marks, group, records);
    case LoopTakes(key, stale) => TakeKeepsMarks(max, s, marks, key, stale);
    case LoopSent(delivered) => SentSending(s, e); SentKeepsMarks(max, s, marks, delivered);
    case _ => QuietKeepsMarks(max, s, marks, e);
  }

  lemma SentSending(s: System, e: Event)
    requires Enabled(s, e) && e.LoopSent?
    ensures s.loop.Sending?
  {
  }

  // ---- whole runs ----

  /** The marks a run leaves beside its registry. */
  function MarksOf(max: int, s: System, marks: Marks, events: seq<Event>): Marks
    requires Exec(max, s, events).Some?
    decreases |events|
  {
    if |events| == 0 then marks
    else MarksOf(max, Step(max, s, events[0]), MarksAfter(max, s, marks, events[0]), events[1..])
  }

  lemma {:induction false} RunKeepsMarks(max: int, s: System, marks: Marks, events: seq<Event>)
    requires MarksInv(max, s, marks) && Exec(max, s, events).Some?
    ensures MarksInv(max, Exec(max, s, events).value, MarksOf(max, s, marks, events))
    decreases |events|
  {
    hide MarksInv, Step, Enabled, MarksAfter;
    if |events| != 0 {
      StepKeepsMarks(max, s, marks, events[0]);
      RunKeepsMarks(max, Step(max, s, events[0]), MarksAfter(max, s, marks, events[0]), events[1..]);
    }
  }

  lemma EmptyKeepsMarks(max: int)
    ensures MarksInv(max, EMPTY, map[])
  {
  }

  /** Above the snapshot a subscription was acknowledged with and above every push it has had. */
  ghost predicate New(snapshot: nat, told: seq<nat>, value: nat) {
    snapshot < value && forall i :: 0 <= i < |told| ==> told[i] < value
  }

  /**
   In every run, the push a taken subscription is about to get tells it something new exactly when it
   had been told less than it is owed; and it does not exactly when its mark was last set for an
   earlier object under its key, or while its own push was on the wire with everything it was owed.
   */
  lemma NewExactlyWhenMarkedFor(max: int, events: seq<Event>, key: SubKey, stale: set<SubKey>)
    requires Exec(max, EMPTY, events).Some? && Enabled(Exec(max, EMPTY, events).value, LoopTakes(key, stale))
    ensures var s, marks := Exec(max, EMPTY, events).value, MarksOf(max, EMPTY, map[], events);
            var t := s.r.byKey[key];
            && t in s.origins && key in marks && marks[key].token <= t
            && (New(s.origins[t].snapshot, s.pushes[t], s.r.objects[t].owed) <==> s.r.objects[t].notified < s.r.objects[t].owed)
            && (New(s.origins[t].snapshot, s.pushes[t], s.r.objects[t].owed) <==> marks[key] == Mark(t, false))
  {
    hide Exec, MarksOf, IndexesAgree, NoneLost, WillWake, StandingCovered, MayTell;
    EmptyKeepsMarks(max);
    RunKeepsMarks(max, EMPTY, map[], events);
    var s, marks := Exec(max, EMPTY, events).value, MarksOf(max, EMPTY, map[], events);
    var t := s.r.byKey[key];
    assert MarkExact(s.r, s.loop, marks, key);
    assert ToldSound(s.log, s.origins[t], s.r.objects[t], s.pushes[t]);
    assert ToldIsKnown(s.pushes[t], s.r.objects[t].notified, s.r.objects[t].notified);
  }
}
