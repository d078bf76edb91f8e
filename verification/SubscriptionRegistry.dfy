/** The push registry as it is kept: fields updated in place under one lock, each call proved against the value model. */
module SubscriptionRegistry {
  import opened Common
  import opened Subscriptions

  const DEFAULT_MAX := 32

  function Named(groupIds: seq<nat>): set<nat> {
    set i | 0 <= i < |groupIds| :: groupIds[i]
  }

  lemma NoneNamed(connection: nat, groupIds: seq<nat>)
    ensures Named(groupIds[..0]) == {} && KeysFor(connection, {}) == {}
  {
  }

  lemma OneMoreNamed(connection: nat, groupIds: seq<nat>, i: nat)
    requires i < |groupIds|
    ensures Named(groupIds[..i + 1]) == Named(groupIds[..i]) + {groupIds[i]}
    ensures KeysFor(connection, Named(groupIds[..i + 1])) == KeysFor(connection, Named(groupIds[..i])) + {SubKey(connection, groupIds[i])}
  {
    var before, after := groupIds[..i], groupIds[..i + 1];
    forall g | g in Named(before) ensures g in Named(after) {
      var k :| 0 <= k < |before| && before[k] == g;
      assert after[k] == g;
    }
    forall g | g in Named(after) ensures g in Named(before) + {groupIds[i]} {
      var k :| 0 <= k < |after| && after[k] == g;
      if k < i { assert before[k] == g; }
    }
    assert groupIds[i] == after[i];
    KeysForOneMore(connection, Named(before), groupIds[i]);
  }

  lemma KeysForOneMore(connection: nat, groups: set<nat>, group: nat)
    ensures KeysFor(connection, groups + {group}) == KeysFor(connection, groups) + {SubKey(connection, group)}
  {
  }

  function StandingAmong(byKey: map<SubKey, nat>, keys: set<SubKey>, group: nat): set<nat> {
    set k | k in keys && k in byKey && k.group == group :: byKey[k]
  }

  function RaisedFor(objects: map<nat, Sub>, tokens: set<nat>, records: seq<PublishedRecord>): map<nat, Sub> {
    map t | t in objects :: if t in tokens then Raised(objects[t], records) else objects[t]
  }

  function DueAmong(byKey: map<SubKey, nat>, objects: map<nat, Sub>, keys: set<SubKey>, group: nat): set<SubKey> {
    set k | k in keys && k in byKey && k.group == group && Due(objects, byKey[k])
  }

  /** One more key looked at: its own object is raised, and no other key's due mark moves. */
  lemma OneMoreRaised(r: Registry, max: int, done: set<SubKey>, key: SubKey, group: nat, records: seq<PublishedRecord>)
    requires RegistryInv(r, max) && key in r.byKey && key !in done && done <= r.byKey.Keys
    ensures key.group != group ==>
              StandingAmong(r.byKey, done + {key}, group) == StandingAmong(r.byKey, done, group)
    ensures key.group == group ==>
              && RaisedFor(r.objects, StandingAmong(r.byKey, done, group), records)[r.byKey[key] := Raised(r.objects[r.byKey[key]], records)]
                 == RaisedFor(r.objects, StandingAmong(r.byKey, done + {key}, group), records)
    ensures var before := RaisedFor(r.objects, StandingAmong(r.byKey, done, group), records);
            var after := RaisedFor(r.objects, StandingAmong(r.byKey, done + {key}, group), records);
            && r.byKey[key] in before && r.byKey[key] in after
            && (key.group == group ==> before[r.byKey[key]] == r.objects[r.byKey[key]] && after[r.byKey[key]] == Raised(r.objects[r.byKey[key]], records))
            && DueAmong(r.byKey, after, done + {key}, group)
               == DueAmong(r.byKey, before, done, group) + (if key.group == group && Due(after, r.byKey[key]) then {key} else {})
  {
    hide IndexesAgree, Raised;
    assert key.group == group ==>
           StandingAmong(r.byKey, done + {key}, group) == StandingAmong(r.byKey, done, group) + {r.byKey[key]};
    assert key.group != group ==>
           StandingAmong(r.byKey, done + {key}, group) == StandingAmong(r.byKey, done, group);
  }

  class Registrar {
    const max: int
    var byKey: map<SubKey, nat>
    var byConnection: map<nat, set<nat>>
    var ready: set<SubKey>
    var objects: map<nat, Sub>
    var allocations: nat
    var signal: bool
    var pushed: nat
    var dropped: nat

    ghost function State(): Registry
      reads this
    {
      Registry(byKey, byConnection, ready, objects, allocations)
    }

    ghost predicate Valid()
      reads this
    {
      RegistryInv(State(), max)
    }

    constructor ()
      ensures Valid() && max == DEFAULT_MAX
      ensures State() == Registry(map[], map[], {}, map[], 0) && !signal
    {
      max := DEFAULT_MAX;
      byKey, byConnection, ready, objects, allocations := map[], map[], {}, map[], 0;
      signal, pushed, dropped := false, 0, 0;
    }

    method DropConnection(connection: nat)
      requires Valid()
      modifies this`byKey, this`byConnection
      ensures Valid() && State() == WithoutConnection(old(State()), connection)
    {
      WithoutConnectionKeepsInv(State(), max, connection);
      var groups := GroupsOf(byConnection, connection);
      var rest := groups;
      while rest != {}
        invariant rest <= groups
        invariant byKey == old(byKey) - KeysFor(connection, groups - rest)
        modifies this`byKey
      {
        var g :| g in rest;
        assert KeysFor(connection, groups - (rest - {g})) == KeysFor(connection, groups - rest) + {SubKey(connection, g)};
        rest := rest - {g};
        byKey := byKey - {SubKey(connection, g)};
      }
      assert groups - rest == groups;
      byConnection := byConnection - {connection};
    }

    method Subscribe(connection: nat, group: nat, readEpoch: nat, snapshot: nat, replace: bool) returns (taken: bool)
      requires Valid()
      modifies this`byKey, this`byConnection, this`objects, this`allocations
      ensures Valid()
      ensures (State(), taken) == Subscriptions.Subscribe(old(State()), max, connection, group, readEpoch, snapshot, replace)
    {
      hide RegistryInv, WithoutConnection;
      SubscribeKeepsInv(State(), max, connection, group, readEpoch, snapshot, replace);
      if replace {
        DropConnection(connection);
      }
      var groups := GroupsOf(byConnection, connection);
      var key := SubKey(connection, group);
      if key !in byKey && max <= |groups| {
        return false;
      }
      byConnection := byConnection[connection := groups + {group}];
      byKey := byKey[key := allocations];
      objects := objects[allocations := Sub(readEpoch, snapshot, snapshot)];
      allocations := allocations + 1;
      return true;
    }

    method Unsubscribe(connection: nat, groupIds: seq<nat>, all: bool)
      requires Valid()
      modifies this`byKey, this`byConnection
      ensures Valid()
      ensures State() == Subscriptions.Unsubscribe(old(State()), connection, Named(groupIds), all)
    {
      hide RegistryInv;
      if all {
        DropConnection(connection);
        return;
      }
      WithoutGroupsKeepsInv(State(), max, connection, Named(groupIds));
      var groups := DropKeys(connection, groupIds);
      byConnection := if |groups| == 0 then byConnection - {connection} else byConnection[connection := groups];
    }

    method DropKeys(connection: nat, groupIds: seq<nat>) returns (groups: set<nat>)
      modifies this`byKey
      ensures byKey == old(byKey) - KeysFor(connection, Named(groupIds))
      ensures groups == GroupsOf(byConnection, connection) - Named(groupIds)
    {
      hide Named, KeysFor;
      groups := GroupsOf(byConnection, connection);
      NoneNamed(connection, groupIds);
      for i := 0 to |groupIds|
        invariant byKey == old(byKey) - KeysFor(connection, Named(groupIds[..i]))
        invariant groups == GroupsOf(byConnection, connection) - Named(groupIds[..i])
      {
        OneMoreNamed(connection, groupIds, i);
        byKey := byKey - {SubKey(connection, groupIds[i])};
        groups := groups - {groupIds[i]};
      }
      assert groupIds[..|groupIds|] == groupIds;
    }

    /** One subscription's high water, raised by each stored record at or below its ceiling. */
    method Raise(token: nat, records: seq<PublishedRecord>)
      requires token in objects
      modifies this`objects
      ensures objects == old(objects)[token := Raised(old(objects)[token], records)]
    {
      hide Raised;
      NothingRaised(objects[token], records);
      for i := 0 to |records|
        invariant objects == old(objects)[token := Raised(old(objects)[token], records[..i])]
      {
        RaisedByOne(old(objects)[token], records, i);
        var sub := objects[token];
        if records[i].epoch <= sub.readEpoch && sub.owed < records[i].recordId {
          objects := objects[token := sub.(owed := records[i].recordId)];
        }
      }
      assert records[..|records|] == records;
    }

    method Published(group: nat, records: seq<PublishedRecord>)
      requires Valid()
      modifies this`objects, this`ready, this`signal
      ensures Valid() && State() == Publish(old(State()), group, records)
      ensures signal == (old(signal) || (records != [] && DueKeys(State(), group) != {}))
    {
      hide RegistryInv, Raised, StandingAmong, RaisedFor, DueAmong, DueKeys, RaisedObjects;
      if |records| == 0 {
        return;
      }
      ghost var before := State();
      PublishKeepsInv(before, max, group, records);
      PublishedStarts(before, group, records);
      var woke := false;
      var rest := byKey.Keys;
      while rest != {}
        invariant rest <= byKey.Keys
        invariant objects == RaisedFor(before.objects, StandingAmong(byKey, byKey.Keys - rest, group), records)
        invariant ready == before.ready + DueAmong(byKey, objects, byKey.Keys - rest, group)
        invariant woke == (DueAmong(byKey, objects, byKey.Keys - rest, group) != {})
        modifies this`objects, this`ready
      {
        var key :| key in rest;
        ghost var done := byKey.Keys - rest;
        TokenOf(before, max, key);
        OneMoreRaised(before, max, done, key, group, records);
        rest := rest - {key};
        assert byKey.Keys - rest == done + {key};
        if key.group == group {
          Raise(byKey[key], records);
          var sub := objects[byKey[key]];
          if sub.notified < sub.owed {
            ready := ready + {key};
            woke := true;
          }
        }
      }
      PublishedEnds(before, group, records);
      if woke {
        signal := true;
      }
    }

    /** The first ready subscription that still stands, its mark and the cancelled marks before it dropped. */
    method TakeReady() returns (taken: Option<SubKey>, token: nat, owed: nat)
      requires Valid()
      modifies this`ready
      ensures taken.None? ==> State() == old(State()).(ready := {}) && forall k :: k in old(ready) ==> k !in byKey
      ensures taken.Some? ==>
                && taken.value in byKey && token == byKey[taken.value] && token in objects && owed == objects[token].owed
                && CanTake(old(State()), taken.value, old(ready) - ready - {taken.value})
                && State() == Take(old(State()), taken.value, old(ready) - ready - {taken.value})
    {
      hide IndexesAgree;
      while ready != {}
        invariant ready <= old(ready) && forall k :: k in old(ready) - ready ==> k !in byKey
        decreases |ready|
      {
        var candidate :| candidate in ready;
        ready := ready - {candidate};
        if candidate in byKey {
          var t := byKey[candidate];
          assert old(ready) - {candidate} - (old(ready) - ready - {candidate}) == ready;
          return Some(candidate), t, objects[t].owed;
        }
      }
      return None, 0, 0;
    }

    /** The push has answered: what was sent is settled against the subscription it was taken for. */
    method Settle(key: SubKey, token: nat, owed: nat, delivered: bool)
      requires Valid() && token in objects && owed <= objects[token].owed
      modifies this`byKey, this`byConnection, this`objects, this`ready, this`pushed, this`dropped
      ensures Valid() && State() == Sent(old(State()), key, token, owed, delivered)
      ensures var settles := key in old(byKey) && old(byKey)[key] == token;
              && pushed == old(pushed) + (if settles && delivered then 1 else 0)
              && dropped == old(dropped) + (if settles && !delivered then 1 else 0)
    {
      hide RegistryInv;
      SentKeepsInv(State(), max, key, token, owed, delivered);
      GroupsStand(State(), max, key);
      if key in byKey && byKey[key] == token {
        if delivered {
          var sub := objects[token];
          if sub.notified < owed {
            sub := sub.(notified := owed);
          }
          objects := objects[token := sub];
          pushed := pushed + 1;
          if sub.notified < sub.owed {
            ready := ready + {key};
          }
        } else {
          assert KeysFor(key.connection, {key.group}) == {key};
          byKey := byKey - {key};
          if key.connection in byConnection {
            var groups := byConnection[key.connection] - {key.group};
            byConnection := if |groups| == 0 then byConnection - {key.connection} else byConnection[key.connection := groups];
          }
          dropped := dropped + 1;
        }
      }
    }
  }

  lemma GroupsStand(r: Registry, max: int, key: SubKey)
    requires RegistryInv(r, max)
    ensures key in r.byKey ==> key.connection in r.byConnection
  {
  }

  lemma TokenOf(r: Registry, max: int, key: SubKey)
    requires RegistryInv(r, max) && key in r.byKey
    ensures r.byKey[key] in r.objects
  {
  }

  lemma NothingRaised(sub: Sub, records: seq<PublishedRecord>)
    ensures Raised(sub, records[..0]) == sub
  {
  }

  lemma RaisedByOne(sub: Sub, records: seq<PublishedRecord>, i: nat)
    requires i < |records|
    ensures var before := Raised(sub, records[..i]);
            Raised(sub, records[..i + 1]) ==
            if records[i].epoch <= before.readEpoch && before.owed < records[i].recordId then before.(owed := records[i].recordId) else before
  {
    assert records[..i + 1][..i] == records[..i];
  }

  lemma PublishedStarts(r: Registry, group: nat, records: seq<PublishedRecord>)
    ensures RaisedFor(r.objects, StandingAmong(r.byKey, r.byKey.Keys - r.byKey.Keys, group), records) == r.objects
    ensures DueAmong(r.byKey, r.objects, r.byKey.Keys - r.byKey.Keys, group) == {}
  {
  }

  lemma PublishedEnds(r: Registry, group: nat, records: seq<PublishedRecord>)
    requires records != []
    ensures var objects := RaisedFor(r.objects, StandingAmong(r.byKey, r.byKey.Keys - {}, group), records);
            && Publish(r, group, records) == r.(objects := objects, ready := r.ready + DueAmong(r.byKey, objects, r.byKey.Keys - {}, group))
            && DueKeys(Publish(r, group, records), group) == DueAmong(r.byKey, objects, r.byKey.Keys - {}, group)
  {
    hide Raised;
    assert StandingAmong(r.byKey, r.byKey.Keys - {}, group) == StandingFor(r, group);
    var raised := r.(objects := RaisedObjects(r, group, records));
    assert DueAmong(r.byKey, raised.objects, r.byKey.Keys - {}, group) == DueKeys(raised, group);
  }
}
