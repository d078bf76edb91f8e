/**
 The group push registry: which connection is owed a push for which group, and the one delivery
 loop that drops the registry's lock while it sends. A subscription object is the number it was
 allocated under, so that two objects are the same exactly when their numbers are.
 */
module Subscriptions {
  import opened Common

  datatype SubKey = SubKey(connection: nat, group: nat)

  /** `owed` is the high water the subscription is owed, `notified` the one last pushed to it. */
  datatype Sub = Sub(readEpoch: nat, owed: nat, notified: nat)

  datatype PublishedRecord = PublishedRecord(recordId: nat, epoch: nat)

  datatype Registry = Registry(
    byKey: map<SubKey, nat>,
    byConnection: map<nat, set<nat>>,
    ready: set<SubKey>,
    objects: map<nat, Sub>,
    allocations: nat)

  function GroupsOf(byConnection: map<nat, set<nat>>, connection: nat): set<nat> {
    if connection in byConnection then byConnection[connection] else {}
  }

  function KeysFor(connection: nat, groups: set<nat>): set<SubKey> {
    set g | g in groups :: SubKey(connection, g)
  }

  /** Everything one connection subscribed to goes. */
  function WithoutConnection(r: Registry, connection: nat): Registry {
    r.(byKey := r.byKey - KeysFor(connection, GroupsOf(r.byConnection, connection)),
       byConnection := r.byConnection - {connection})
  }

  function Added(r: Registry, connection: nat, group: nat, sub: Sub): Registry {
    r.(byKey := r.byKey[SubKey(connection, group) := r.allocations],
       byConnection := r.byConnection[connection := GroupsOf(r.byConnection, connection) + {group}],
       objects := r.objects[r.allocations := sub],
       allocations := r.allocations + 1)
  }

  /** A connection at its bound is refused, though a replacement it asked for has by then been made. */
  function Subscribe(r: Registry, max: int, connection: nat, group: nat, readEpoch: nat, snapshot: nat, replace: bool)
    : (Registry, bool)
  {
    var cleared := if replace then WithoutConnection(r, connection) else r;
    if SubKey(connection, group) !in cleared.byKey && max <= |GroupsOf(cleared.byConnection, connection)| then (cleared, false)
    else (Added(cleared, connection, group, Sub(readEpoch, snapshot, snapshot)), true)
  }

  function WithoutGroups(r: Registry, connection: nat, groups: set<nat>): Registry {
    var left := GroupsOf(r.byConnection, connection) - groups;
    r.(byKey := r.byKey - KeysFor(connection, groups),
       byConnection := if left == {} then r.byConnection - {connection} else r.byConnection[connection := left])
  }

  function Unsubscribe(r: Registry, connection: nat, groups: set<nat>, all: bool): Registry {
    if all then WithoutConnection(r, connection) else WithoutGroups(r, connection, groups)
  }

  /** What one subscription is owed once these records are stored, never above its ceiling. */
  function Raised(sub: Sub, records: seq<PublishedRecord>): (s: Sub)
    ensures s.readEpoch == sub.readEpoch && s.notified == sub.notified && sub.owed <= s.owed
    ensures s.owed == sub.owed || exists i :: 0 <= i < |records| && records[i].recordId == s.owed && records[i].epoch <= sub.readEpoch
    ensures forall i :: 0 <= i < |records| && records[i].epoch <= sub.readEpoch ==> records[i].recordId <= s.owed
  {
    if |records| == 0 then sub
    else
      var n := |records| - 1;
      var rest := Raised(sub, records[..n]);
      if records[n].epoch <= rest.readEpoch && rest.owed < records[n].recordId then rest.(owed := records[n].recordId) else rest
  }

  /** The objects standing for one group. */
  function StandingFor(r: Registry, group: nat): set<nat> {
    set k | k in r.byKey && k.group == group :: r.byKey[k]
  }

  function RaisedObjects(r: Registry, group: nat, records: seq<PublishedRecord>): map<nat, Sub> {
    map t | t in r.objects :: if t in StandingFor(r, group) then Raised(r.objects[t], records) else r.objects[t]
  }

  function Due(objects: map<nat, Sub>, t: nat): bool {
    t in objects && objects[t].notified < objects[t].owed
  }

  /** The keys of one group whose subscription is owed more than it was told. */
  function DueKeys(r: Registry, group: nat): set<SubKey> {
    set k | k in r.byKey && k.group == group && Due(r.objects, r.byKey[k])
  }

  function Publish(r: Registry, group: nat, records: seq<PublishedRecord>): Registry {
    if |records| == 0 then r
    else
      var raised := r.(objects := RaisedObjects(r, group, records));
      raised.(ready := r.ready + DueKeys(raised, group))
  }

  /** The loop takes one ready subscription that still stands, dropping the cancelled marks it passes over. */
  predicate CanTake(r: Registry, key: SubKey, stale: set<SubKey>) {
    key in r.ready && key in r.byKey && stale <= r.ready && (forall k :: k in stale ==> k !in r.byKey)
  }

  function Take(r: Registry, key: SubKey, stale: set<SubKey>): Registry {
    r.(ready := r.ready - {key} - stale)
  }

  /** The send has answered: settle it against the subscription it was for, if that one still stands. */
  function Sent(r: Registry, key: SubKey, token: nat, owed: nat, delivered: bool): Registry {
    if key !in r.byKey || r.byKey[key] != token || token !in r.objects then r
    else if delivered then
      var sub := r.objects[token];
      var told := if sub.notified < owed then sub.(notified := owed) else sub;
      r.(objects := r.objects[token := told], ready := if told.notified < told.owed then r.ready + {key} else r.ready)
    else WithoutGroups(r, key.connection, {key.group})
  }

  // ---- what every registry satisfies ----

  /** The two indexes hold the same subscriptions, no connection an empty set or more than its bound. */
  ghost predicate IndexesAgree(byKey: map<SubKey, nat>, byConnection: map<nat, set<nat>>, max: int) {
    && (forall k :: k in byKey <==> k.group in GroupsOf(byConnection, k.connection))
    && (forall c :: c in byConnection ==> byConnection[c] != {} && |byConnection[c]| <= max)
  }

  /** Each key has an object of its own. */
  ghost predicate ObjectsSound(r: Registry) {
    && (forall k :: k in r.byKey ==> r.byKey[k] in r.objects)
    && (forall t :: t in r.objects ==> t < r.allocations && r.objects[t].notified <= r.objects[t].owed)
    && (forall a, b :: a in r.byKey && b in r.byKey && r.byKey[a] == r.byKey[b] ==> a == b)
  }

  ghost predicate RegistryInv(r: Registry, max: int) {
    IndexesAgree(r.byKey, r.byConnection, max) && ObjectsSound(r)
  }

  lemma WithoutConnectionKeepsInv(r: Registry, max: int, connection: nat)
    requires RegistryInv(r, max)
    ensures RegistryInv(WithoutConnection(r, connection), max)
  {
    var r' := WithoutConnection(r, connection);
    forall k ensures k in r'.byKey <==> k.group in GroupsOf(r'.byConnection, k.connection) {
      assert k in KeysFor(connection, GroupsOf(r.byConnection, connection)) <==>
             k.connection == connection && k.group in GroupsOf(r.byConnection, connection);
    }
  }

  lemma WithoutGroupsKeepsInv(r: Registry, max: int, connection: nat, groups: set<nat>)
    requires RegistryInv(r, max)
    ensures RegistryInv(WithoutGroups(r, connection, groups), max)
  {
    var r' := WithoutGroups(r, connection, groups);
    var before := GroupsOf(r.byConnection, connection);
    CardOfPart(before - groups, before);
    forall k ensures k in r'.byKey <==> k.group in GroupsOf(r'.byConnection, k.connection) {
      assert k in KeysFor(connection, groups) <==> k.connection == connection && k.group in groups;
    }
  }

  lemma CardOfPart<T>(a: set<T>, b: set<T>)
    requires a <= b
    ensures |a| <= |b|
  {
    assert b == a + (b - a);
  }

  lemma AddedIndexesAgree(byKey: map<SubKey, nat>, byConnection: map<nat, set<nat>>, max: int, connection: nat, group: nat, token: nat)
    requires IndexesAgree(byKey, byConnection, max)
    requires SubKey(connection, group) in byKey || |GroupsOf(byConnection, connection)| < max
    ensures IndexesAgree(byKey[SubKey(connection, group) := token],
                         byConnection[connection := GroupsOf(byConnection, connection) + {group}], max)
  {
    var groups := GroupsOf(byConnection, connection);
    if group in groups { assert groups + {group} == groups; }
  }

  lemma AddedKeepsInv(r: Registry, max: int, connection: nat, group: nat, sub: Sub)
    requires RegistryInv(r, max) && sub.notified <= sub.owed
    requires SubKey(connection, group) in r.byKey || |GroupsOf(r.byConnection, connection)| < max
    ensures RegistryInv(Added(r, connection, group, sub), max)
  {
    hide IndexesAgree;
    AddedIndexesAgree(r.byKey, r.byConnection, max, connection, group, r.allocations);
  }

  /** A subscription never takes its connection past the bound, and both indexes learn of it. */
  lemma SubscribeKeepsInv(r: Registry, max: int, connection: nat, group: nat, readEpoch: nat, snapshot: nat, replace: bool)
    requires RegistryInv(r, max)
    ensures RegistryInv(Subscribe(r, max, connection, group, readEpoch, snapshot, replace).0, max)
  {
    hide RegistryInv, WithoutConnection, Added;
    var cleared := if replace then WithoutConnection(r, connection) else r;
    if replace { WithoutConnectionKeepsInv(r, max, connection); }
    if SubKey(connection, group) in cleared.byKey || |GroupsOf(cleared.byConnection, connection)| < max {
      AddedKeepsInv(cleared, max, connection, group, Sub(readEpoch, snapshot, snapshot));
    }
  }

  // ---- which subscriptions stand afterwards ----

  /** One connection's subscriptions. */
  function KeysOf(r: Registry, connection: nat): set<SubKey> {
    set k | k in r.byKey && k.connection == connection
  }

  lemma {:induction false} KeysCounted(connection: nat, groups: set<nat>)
    ensures |KeysFor(connection, groups)| == |groups|
    decreases |groups|
  {
    if groups != {} {
      var g :| g in groups;
      KeysCounted(connection, groups - {g});
      assert KeysFor(connection, groups) == KeysFor(connection, groups - {g}) + {SubKey(connection, g)};
    }
  }

  lemma ConnectionsKeys(r: Registry, max: int, connection: nat)
    requires RegistryInv(r, max)
    ensures KeysOf(r, connection) == KeysFor(connection, GroupsOf(r.byConnection, connection))
    ensures |KeysOf(r, connection)| == |GroupsOf(r.byConnection, connection)|
  {
    hide ObjectsSound;
    forall k ensures k in KeysOf(r, connection) <==> k in KeysFor(connection, GroupsOf(r.byConnection, connection)) {
      assert k in r.byKey <==> k.group in GroupsOf(r.byConnection, k.connection);
    }
    KeysCounted(connection, GroupsOf(r.byConnection, connection));
  }

  /** A key stands under the very object it did. */
  predicate StandsAlike(r: Registry, r': Registry, k: SubKey) {
    (k in r'.byKey <==> k in r.byKey) && (k in r.byKey && k in r'.byKey ==> r'.byKey[k] == r.byKey[k])
  }

  lemma ClearedExactly(r: Registry, max: int, connection: nat)
    requires RegistryInv(r, max)
    ensures var r' := WithoutConnection(r, connection);
            && (forall k: SubKey :: if k.connection == connection then k !in r'.byKey else StandsAlike(r, r', k))
            && GroupsOf(r'.byConnection, connection) == {}
            && r'.objects == r.objects && r'.ready == r.ready && r'.allocations == r.allocations
  {
    hide ObjectsSound;
    ConnectionsKeys(r, max, connection);
    forall k: SubKey | k.connection == connection ensures k !in WithoutConnection(r, connection).byKey {
      assert k in r.byKey ==> k in KeysOf(r, connection);
    }
  }

  /**
   A subscribe that replaces leaves the connection its one new subscription, or none when it is refused;
   one that does not leaves its others as they stand. It is refused exactly when the key is new and the
   connection holds its bound; accepted, it stands under a new object at the snapshot it was given. No
   other connection's subscription changes.
   */
  lemma SubscribeExactly(r: Registry, max: int, connection: nat, group: nat, readEpoch: nat, snapshot: nat, replace: bool)
    requires RegistryInv(r, max)
    ensures var (r', ok) := Subscribe(r, max, connection, group, readEpoch, snapshot, replace);
            var key := SubKey(connection, group);
            && (!ok <==> if replace then max <= 0 else key !in r.byKey && max <= |KeysOf(r, connection)|)
            && (replace ==> KeysOf(r', connection) == if ok then {key} else {})
            && (!replace ==> forall k: SubKey :: k.connection == connection && k != key ==> StandsAlike(r, r', k))
            && (!replace && !ok ==> key !in r'.byKey)
            && (forall k: SubKey :: k.connection != connection ==> StandsAlike(r, r', k))
            && (ok ==>
                  && key in r'.byKey && r'.byKey[key] == r.allocations == r'.allocations - 1
                  && r'.objects == r.objects[r.allocations := Sub(readEpoch, snapshot, snapshot)])
            && (!ok ==> r'.objects == r.objects && r'.allocations == r.allocations)
            && r'.ready == r.ready
  {
    hide RegistryInv, WithoutConnection;
    ConnectionsKeys(r, max, connection);
    ClearedExactly(r, max, connection);
    var cleared := if replace then WithoutConnection(r, connection) else r;
    var (r', ok) := Subscribe(r, max, connection, group, readEpoch, snapshot, replace);
    if replace {
      forall k ensures k in KeysOf(r', connection) <==> ok && k == SubKey(connection, group) {
        if k.connection == connection { assert k !in cleared.byKey; }
      }
    }
  }

  /** An unsubscribe ends the connection's named subscriptions, or all of them, and no other. */
  lemma UnsubscribeExactly(r: Registry, max: int, connection: nat, groups: set<nat>, all: bool)
    requires RegistryInv(r, max)
    ensures var r' := Unsubscribe(r, connection, groups, all);
            && (forall k: SubKey :: if k.connection == connection && (all || k.group in groups) then k !in r'.byKey else StandsAlike(r, r', k))
            && r'.objects == r.objects && r'.ready == r.ready && r'.allocations == r.allocations
  {
    hide RegistryInv, WithoutConnection;
    ClearedExactly(r, max, connection);
    assert forall k :: k in KeysFor(connection, groups) <==> k.connection == connection && k.group in groups;
  }

  lemma PublishKeepsInv(r: Registry, max: int, group: nat, records: seq<PublishedRecord>)
    requires RegistryInv(r, max)
    ensures RegistryInv(Publish(r, group, records), max)
  {
    hide Raised;
  }

  lemma SentKeepsInv(r: Registry, max: int, key: SubKey, token: nat, owed: nat, delivered: bool)
    requires RegistryInv(r, max) && (token in r.objects ==> owed <= r.objects[token].owed)
    ensures RegistryInv(Sent(r, key, token, owed, delivered), max)
  {
    hide WithoutGroups;
    if !delivered { WithoutGroupsKeepsInv(r, max, key.connection, {key.group}); }
  }
}
