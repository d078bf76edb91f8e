/**
 The rendezvous push registry as it is kept: subscribers by box, a count for each connection and one
 for all, and the boxes' expiries in a heap, updated in place and proved against the value model.
 */
module RendezvousRegistry {
  import opened Common
  import opened RendezvousPush
  import Heap = ExpiryHeap

  const DEFAULT_MAX := 32

  function StandingKeys(boxes: Boxes): set<Key> {
    set b, c | b in boxes && c in boxes[b].subscribers :: Key(c, b)
  }

  function OfConnection(keys: set<Key>, connection: nat): set<Key> {
    set k | k in keys && k.connection == connection
  }

  /** The kept counts are the real ones: of each connection's subscriptions, and of all. */
  ghost predicate Counted(keys: set<Key>, held: map<nat, nat>, count: int) {
    && count == |keys|
    && (forall c: nat :: (c in held <==> OfConnection(keys, c) != {}) && (c in held ==> held[c] == |OfConnection(keys, c)|))
  }

  function Released(held: map<nat, nat>, connection: nat): map<nat, nat> {
    if connection !in held || held[connection] <= 1 then held - {connection} else held[connection := held[connection] - 1]
  }

  function Taken(held: map<nat, nat>, connection: nat): map<nat, nat> {
    held[connection := if connection in held then held[connection] + 1 else 1]
  }

  lemma OneFewer(keys: set<Key>, key: Key, connection: nat)
    requires key in keys
    ensures OfConnection(keys - {key}, connection) == OfConnection(keys, connection) - {key}
    ensures |OfConnection(keys - {key}, connection)| == |OfConnection(keys, connection)| - (if connection == key.connection then 1 else 0)
    ensures |OfConnection(keys - {key}, connection)| == 0 ==> OfConnection(keys - {key}, connection) == {}
  {
    var after := OfConnection(keys - {key}, connection);
    assert after == OfConnection(keys, connection) - {key};
    if connection == key.connection {
      assert OfConnection(keys, connection) == after + {key};
    } else {
      assert OfConnection(keys, connection) == after;
    }
  }

  lemma ReleasedCounts(keys: set<Key>, held: map<nat, nat>, count: int, key: Key)
    requires Counted(keys, held, count) && key in keys
    ensures Counted(keys - {key}, Released(held, key.connection), count - 1)
  {
    hide OfConnection;
    forall c: nat
      ensures |OfConnection(keys - {key}, c)| == |OfConnection(keys, c)| - (if c == key.connection then 1 else 0)
      ensures |OfConnection(keys - {key}, c)| == 0 <==> OfConnection(keys - {key}, c) == {}
    {
      OneFewer(keys, key, c);
    }
  }

  lemma OneMore(keys: set<Key>, key: Key, connection: nat)
    requires key !in keys
    ensures OfConnection(keys + {key}, connection) == OfConnection(keys, connection) + (if connection == key.connection then {key} else {})
    ensures |OfConnection(keys + {key}, connection)| == |OfConnection(keys, connection)| + (if connection == key.connection then 1 else 0)
  {
  }

  lemma TakenCounts(keys: set<Key>, held: map<nat, nat>, count: int, key: Key)
    requires Counted(keys, held, count) && key !in keys
    ensures Counted(keys + {key}, Taken(held, key.connection), count + 1)
  {
    hide OfConnection;
    forall c: nat
      ensures OfConnection(keys + {key}, c) == OfConnection(keys, c) + (if c == key.connection then {key} else {})
      ensures |OfConnection(keys + {key}, c)| == |OfConnection(keys, c)| + (if c == key.connection then 1 else 0)
    {
      OneMore(keys, key, c);
    }
  }

  lemma HeldIsCounted(boxes: Boxes, held: map<nat, nat>, count: int, connection: nat)
    requires Counted(StandingKeys(boxes), held, count)
    ensures (if connection in held then held[connection] else 0) == |Held(boxes, connection)|
  {
    assert OfConnection(StandingKeys(boxes), connection) == Held(boxes, connection);
  }

  lemma KeysWithoutBox(boxes: Boxes, box: nat)
    ensures StandingKeys(boxes - {box}) == StandingKeys(boxes) - KeysAt(boxes, box)
    ensures KeysAt(boxes, box) <= StandingKeys(boxes)
  {
  }

  lemma KeysWithout(boxes: Boxes, key: Key)
    requires Standing(boxes, key)
    ensures StandingKeys(BoxesWithout(boxes, key)) == StandingKeys(boxes) - {key} && key in StandingKeys(boxes)
  {
    hide BoxesWithout;
    forall k ensures k in StandingKeys(BoxesWithout(boxes, key)) <==> k in StandingKeys(boxes) && k != key {
      WithoutStands(boxes, key, k);
      assert Standing(boxes, k) <==> k in StandingKeys(boxes);
      assert Standing(BoxesWithout(boxes, key), k) <==> k in StandingKeys(BoxesWithout(boxes, key));
    }
  }

  lemma KeysMade(r: Registry, key: Key, expire: Time)
    requires !Standing(r.boxes, key)
    ensures StandingKeys(Made(r, key, expire).boxes) == StandingKeys(r.boxes) + {key} && key !in StandingKeys(r.boxes)
  {
    hide Made;
    forall k ensures k in StandingKeys(Made(r, key, expire).boxes) <==> k in StandingKeys(r.boxes) + {key} {
      MadeStands(r, key, expire, k);
      assert Standing(r.boxes, k) <==> k in StandingKeys(r.boxes);
      assert Standing(Made(r, key, expire).boxes, k) <==> k in StandingKeys(Made(r, key, expire).boxes);
    }
    assert Standing(r.boxes, key) <==> key in StandingKeys(r.boxes);
  }

  // ---- the expiry order ----

  function Entries(expiry: seq<Entry>): set<Entry> {
    set i | 0 <= i < |expiry| :: expiry[i]
  }

  lemma EntriesAre(expiry: seq<Entry>, e: Entry)
    ensures e in Entries(expiry) <==> e in multiset(expiry)
  {
    if e in multiset(expiry) {
      assert e in expiry;
      var i :| 0 <= i < |expiry| && expiry[i] == e;
    }
  }

  lemma EntriesPushed(before: seq<Entry>, after: seq<Entry>, entry: Entry)
    requires multiset(after) == multiset(before) + multiset{entry}
    ensures Entries(after) == Entries(before) + {entry}
  {
    hide Entries;
    forall e ensures e in Entries(after) <==> e in Entries(before) + {entry} {
      EntriesAre(before, e);
      EntriesAre(after, e);
    }
  }

  /** Halfway through a prune: only what has expired is gone, from the boxes and from the schedule. */
  ghost predicate Pruning(r0: Registry, r: Registry, now: Time) {
    && (forall b :: b in r.boxes ==> b in r0.boxes && r.boxes[b] == r0.boxes[b])
    && (forall b :: b in r0.boxes && now < r0.boxes[b].expire ==> b in r.boxes)
    && r.ready == (set k | k in r0.ready && k.box in r.boxes)
    && r.expiry <= r0.expiry
    && (forall e :: e in r0.expiry && now < e.expire ==> e in r.expiry)
    && r.objects == r0.objects && r.allocations == r0.allocations
  }

  /** Popping an entry that is due, and its box if that is due too, loses no box its entry. */
  lemma PruneStep(r0: Registry, r: Registry, max: int, entry: Entry, expiry': set<Entry>, now: Time)
    requires RegistryInv(r, max) && Pruning(r0, r, now)
    requires entry in r.expiry && entry.expire <= now && r.expiry == expiry' + {entry}
    ensures var due := entry.box in r.boxes && r.boxes[entry.box].expire <= now;
            var r' := if due then DropBox(r.(expiry := expiry'), entry.box) else r.(expiry := expiry');
            RegistryInv(r', max) && Pruning(r0, r', now)
  {
    hide Bounded, BoxesSound;
    var due := entry.box in r.boxes && r.boxes[entry.box].expire <= now;
    if due {
      DropBoxKeepsInv(r, max, entry.box);
      assert DropBox(r.(expiry := expiry'), entry.box) == DropBox(r, entry.box).(expiry := expiry');
    }
  }

  /** Once no due entry is left, no due box is either, whatever stale entries came up on the way. */
  lemma PruneEnds(r0: Registry, r: Registry, max: int, now: Time)
    requires RegistryInv(r0, max) && RegistryInv(r, max) && Pruning(r0, r, now) && forall e :: e in r.expiry ==> now < e.expire
    ensures r == Prune(r0, now)
  {
    hide Bounded, BoxesSound;
    forall b | b in r.boxes ensures now < r.boxes[b].expire { assert Entry(r.boxes[b].expire, b) in r.expiry; }
    assert r.boxes == LiveBoxes(r0.boxes, now);
    assert r.ready == Prune(r0, now).ready;
    assert r.expiry == Prune(r0, now).expiry;
  }

  lemma PruneStarts(r: Registry, max: int, now: Time)
    requires RegistryInv(r, max)
    ensures Pruning(r, r, now)
  {
    hide Bounded, BoxesSound;
  }

  lemma NoneDueAtTheRoot(expiry: seq<Entry>, now: Time)
    requires Heap.IsHeap(expiry) && (expiry == [] || now < expiry[0].expire)
    ensures forall e :: e in Entries(expiry) ==> now < e.expire
  {
    forall i: nat | i < |expiry| ensures now < expiry[i].expire { Heap.RootIsLeast(expiry, i); }
  }

  function PendingFor(objects: map<nat, Sub>, tokens: set<nat>, pending: nat): map<nat, Sub> {
    map t | t in objects :: if t in tokens then objects[t].(pending := pending) else objects[t]
  }

  function TokensOf(subscribers: map<nat, nat>, connections: set<nat>): set<nat> {
    set c | c in connections && c in subscribers :: subscribers[c]
  }

  function KeysOf(connections: set<nat>, box: nat): set<Key> {
    set c | c in connections :: Key(c, box)
  }

  lemma OneMorePending(objects: map<nat, Sub>, subscribers: map<nat, nat>, done: set<nat>, c: nat, box: nat, pending: nat)
    requires c in subscribers && subscribers[c] in objects
    ensures var before := PendingFor(objects, TokensOf(subscribers, done), pending);
            && subscribers[c] in before
            && before[subscribers[c] := before[subscribers[c]].(pending := pending)] == PendingFor(objects, TokensOf(subscribers, done + {c}), pending)
    ensures KeysOf(done + {c}, box) == KeysOf(done, box) + {Key(c, box)}
  {
    assert TokensOf(subscribers, done + {c}) == TokensOf(subscribers, done) + {subscribers[c]};
  }

  lemma PendingStarts(objects: map<nat, Sub>, subscribers: map<nat, nat>, box: nat, pending: nat)
    ensures PendingFor(objects, TokensOf(subscribers, {}), pending) == objects && KeysOf({}, box) == {}
  {
  }

  lemma PendingEnds(boxes: Boxes, objects: map<nat, Sub>, box: nat, pending: nat)
    requires box in boxes
    ensures PendingFor(objects, TokensOf(boxes[box].subscribers, boxes[box].subscribers.Keys), pending) == Pending(boxes, objects, box, pending)
    ensures KeysOf(boxes[box].subscribers.Keys, box) == KeysAt(boxes, box)
  {
    assert TokensOf(boxes[box].subscribers, boxes[box].subscribers.Keys) == boxes[box].subscribers.Values;
  }

  lemma SubscriberKnown(r: Registry, max: int, box: nat, c: nat)
    requires RegistryInv(r, max) && box in r.boxes && c in r.boxes[box].subscribers
    ensures r.boxes[box].subscribers[c] in r.objects
  {
    assert Standing(r.boxes, Key(c, box));
  }

  lemma NoKeys(box: nat, keys: set<Key>, connections: set<nat>)
    ensures KeysOf(connections - connections, box) == {} && keys - KeysOf(connections - connections, box) == keys
  {
  }

  lemma OneMoreKey(done: set<nat>, c: nat, box: nat)
    requires c !in done
    ensures KeysOf(done + {c}, box) == KeysOf(done, box) + {Key(c, box)} && Key(c, box) !in KeysOf(done, box)
  {
  }

  lemma SubscribersStand(boxes: Boxes, box: nat)
    requires box in boxes
    ensures KeysOf(boxes[box].subscribers.Keys, box) == KeysAt(boxes, box)
    ensures forall c :: c in boxes[box].subscribers ==> Key(c, box) in StandingKeys(boxes)
  {
  }

  lemma FewerLeft(rest: seq<Entry>, expiry: seq<Entry>, entry: Entry)
    requires multiset(expiry) == multiset(rest) + multiset{entry}
    ensures |rest| < |expiry|
  {
    assert |multiset(expiry)| == |expiry| && |multiset(rest)| == |rest|;
  }

  lemma DropFrame(r: Registry, expiry: set<Entry>, box: nat)
    ensures DropBox(r.(expiry := expiry), box) == DropBox(r, box).(expiry := expiry)
  {
  }

  class Registrar {
    const max: int
    var boxes: Boxes
    var held: map<nat, nat>
    var count: int
    var expiry: seq<Entry>
    var ready: set<Key>
    var objects: map<nat, Sub>
    var allocations: nat
    var visited: nat
    var signal: bool
    var pushed: nat
    var dropped: nat

    ghost function State(): Registry
      reads this
    {
      Registry(boxes, ready, Entries(expiry), objects, allocations)
    }

    ghost predicate Valid()
      reads this
    {
      RegistryInv(State(), max) && Heap.IsHeap(expiry) && Counted(StandingKeys(boxes), held, count)
    }

    constructor ()
      ensures Valid() && max == DEFAULT_MAX
      ensures State() == Registry(map[], {}, {}, map[], 0) && !signal && count == 0
    {
      max := DEFAULT_MAX;
      boxes, held, count, expiry, ready := map[], map[], 0, [], {};
      objects, allocations := map[], 0;
      visited, signal, pushed, dropped := 0, false, 0, 0;
    }

    method Release(connection: nat)
      modifies this`held, this`count
      ensures held == Released(old(held), connection) && count == old(count) - 1
    {
      count := count - 1;
      if connection !in held || held[connection] <= 1 {
        held := held - {connection};
        return;
      }
      held := held[connection := held[connection] - 1];
    }

    method Remove(key: Key)
      requires Valid()
      modifies this`boxes, this`held, this`count, this`ready
      ensures Valid() && State() == RendezvousPush.Remove(old(State()), key)
    {
      hide RegistryInv, Counted, StandingKeys, Entries, Heap.IsHeap, Released;
      if key.box !in boxes || key.connection !in boxes[key.box].subscribers {
        return;
      }
      RemoveKeepsInv(State(), max, key);
      KeysWithout(boxes, key);
      ReleasedCounts(StandingKeys(boxes), held, count, key);
      var left := boxes[key.box].subscribers - {key.connection};
      ready := ready - {key};
      Release(key.connection);
      boxes := if |left| == 0 then boxes - {key.box} else boxes[key.box := boxes[key.box].(subscribers := left)];
    }

    /** Every subscription to one box goes, and the call visits those and no others. */
    method DropBox(box: nat)
      requires Valid()
      modifies this`boxes, this`held, this`count, this`ready, this`visited
      ensures Valid() && State() == RendezvousPush.DropBox(old(State()), box)
      ensures visited + count == old(visited + count)
    {
      hide RegistryInv, Counted, StandingKeys, Entries, Heap.IsHeap, Released, KeysOf;
      DropBoxKeepsInv(State(), max, box);
      KeysWithoutBox(boxes, box);
      if box !in boxes {
        assert boxes - {box} == boxes;
        return;
      }
      ghost var keys := StandingKeys(boxes);
      SubscribersStand(boxes, box);
      var subscribers := boxes[box].subscribers;
      var rest := subscribers.Keys;
      NoKeys(box, keys, rest);
      while rest != {}
        invariant rest <= subscribers.Keys
        invariant Counted(keys - KeysOf(subscribers.Keys - rest, box), held, count)
        invariant ready == old(ready) - KeysOf(subscribers.Keys - rest, box)
        invariant visited + count == old(visited + count)
        modifies this`held, this`count, this`ready, this`visited
      {
        var c :| c in rest;
        ghost var done := subscribers.Keys - rest;
        rest := rest - {c};
        assert subscribers.Keys - rest == done + {c};
        OneMoreKey(done, c, box);
        ReleasedCounts(keys - KeysOf(done, box), held, count, Key(c, box));
        assert keys - KeysOf(done, box) - {Key(c, box)} == keys - KeysOf(done + {c}, box);
        visited := visited + 1;
        ready := ready - {Key(c, box)};
        Release(c);
      }
      assert subscribers.Keys - rest == subscribers.Keys;
      boxes := boxes - {box};
    }

    /** What has expired goes, in expiry order, though entries of boxes long gone come up among it. */
    method Prune(now: Time)
      requires Valid()
      modifies this`boxes, this`held, this`count, this`ready, this`visited, this`expiry
      ensures Valid() && State() == RendezvousPush.Prune(old(State()), now)
      ensures visited + count == old(visited + count)
    {
      hide RegistryInv, Counted, StandingKeys, Entries, Heap.IsHeap, Pruning, RendezvousPush.DropBox, RendezvousPush.Prune;
      ghost var before := State();
      PruneStarts(before, max, now);
      while |expiry| != 0 && !(now < expiry[0].expire)
        invariant Valid() && Pruning(before, State(), now)
        invariant visited + count == old(visited + count)
        decreases |expiry|
      {
        ghost var r := State();
        var rest, entry := Heap.Pop(expiry);
        EntriesPushed(rest, expiry, entry);
        FewerLeft(rest, expiry, entry);
        EntriesAre(expiry, entry);
        PruneStep(before, r, max, entry, Entries(rest), now);
        if entry.box in boxes && !(now < boxes[entry.box].expire) {
          DropBox(entry.box);
          DropFrame(r, Entries(rest), entry.box);
        }
        expiry := rest;
      }
      NoneDueAtTheRoot(expiry, now);
      PruneEnds(before, State(), max, now);
    }

    method Subscribe(key: Key, expire: Time, now: Time) returns (outcome: Outcome)
      requires Valid()
      modifies this
      ensures Valid() && (State(), outcome) == RendezvousPush.Subscribe(old(State()), max, key, expire, now)
    {
      hide RegistryInv, Counted, StandingKeys, Entries, Heap.IsHeap, RendezvousPush.Prune, RendezvousPush.Join;
      SubscribeKeepsInv(State(), max, key, expire, now);
      Prune(now);
      if key.box in boxes && expire < boxes[key.box].expire {
        return Gone;
      }
      if key.box in boxes && boxes[key.box].expire < expire {
        DropBox(key.box);
      }
      outcome := Join(key, expire);
    }

    method Join(key: Key, expire: Time) returns (outcome: Outcome)
      requires Valid()
      modifies this`boxes, this`held, this`count, this`expiry, this`objects, this`allocations
      ensures Valid() && (State(), outcome) == RendezvousPush.Join(old(State()), max, key, expire)
    {
      hide RegistryInv, Counted, StandingKeys, Entries, Heap.IsHeap, Held, Taken;
      if key.box in boxes && key.connection in boxes[key.box].subscribers {
        var token := boxes[key.box].subscribers[key.connection];
        TokenKnown(State(), max, key);
        ClaimKeepsRegistry(State(), max, key);
        objects := objects[token := objects[token].(claims := objects[token].claims + 1)];
        return Claimed(token, false);
      }
      HeldIsCounted(boxes, held, count, key.connection);
      if max <= (if key.connection in held then held[key.connection] else 0) {
        return Full;
      }
      ghost var before := State();
      MadeKeepsInv(before, max, key, expire);
      KeysMade(before, key, expire);
      TakenCounts(StandingKeys(boxes), held, count, key);
      var box := if key.box in boxes then boxes[key.box] else Box(expire, map[]);
      if key.box !in boxes {
        var grown := Heap.Push(expiry, Entry(expire, key.box));
        EntriesPushed(expiry, grown, Entry(expire, key.box));
        expiry := grown;
      }
      boxes := boxes[key.box := box.(subscribers := box.subscribers[key.connection := allocations])];
      held := Taken(held, key.connection);
      count := count + 1;
      objects := objects[allocations := Sub(1, false, 0)];
      outcome := Claimed(allocations, true);
      allocations := allocations + 1;
      assert State() == Made(before, key, expire);
    }

    method Settle(key: Key, claimed: nat, taken: bool)
      requires Valid()
      modifies this`boxes, this`held, this`count, this`ready, this`objects
      ensures Valid() && State() == RendezvousPush.Settle(old(State()), key, claimed, taken)
    {
      hide RegistryInv, Counted, StandingKeys, Entries, Heap.IsHeap, RendezvousPush.Remove;
      if key.box !in boxes || key.connection !in boxes[key.box].subscribers || boxes[key.box].subscribers[key.connection] != claimed {
        return;
      }
      SettleKeepsInv(State(), max, key, claimed, true);
      TokenKnown(State(), max, key);
      var sub := objects[claimed];
      sub := sub.(claims := sub.claims - 1);
      if taken {
        objects := objects[claimed := sub.(kept := true)];
        return;
      }
      RewriteKeepsRegistry(State(), max, claimed, sub);
      objects := objects[claimed := sub];
      if !sub.kept && sub.claims == 0 {
        Remove(key);
      }
    }

    method Deposited(box: nat, pending: nat, now: Time)
      requires Valid()
      modifies this
      ensures Valid() && State() == RendezvousPush.Deposited(old(State()), box, pending, now)
      ensures signal == (old(signal) || box in boxes)
      ensures visited == old(visited) + (old(count) - count) + |KeysAt(boxes, box)|
    {
      hide RegistryInv, Counted, StandingKeys, Entries, Heap.IsHeap, RendezvousPush.Prune;
      DepositedKeepsInv(State(), max, box, pending, now);
      Prune(now);
      var marked := false;
      if box in boxes {
        marked := Mark(box, pending);
      }
      if marked {
        signal := true;
      }
    }

    /** Every subscriber of the box is owed a push of its count; no other subscription is visited. */
    method Mark(box: nat, pending: nat) returns (marked: bool)
      requires Valid() && box in boxes
      modifies this`objects, this`ready, this`visited
      ensures objects == Pending(boxes, old(objects), box, pending) && ready == old(ready) + KeysAt(boxes, box)
      ensures visited == old(visited) + |KeysAt(boxes, box)| && marked
    {
      hide RegistryInv, Counted, StandingKeys, Entries, Heap.IsHeap, PendingFor, TokensOf, KeysOf, Pending, KeysAt;
      ghost var r := State();
      var subscribers := boxes[box].subscribers;
      var rest := subscribers.Keys;
      assert subscribers.Keys - rest == {};
      PendingStarts(objects, subscribers, box, pending);
      marked := false;
      while rest != {}
        invariant rest <= subscribers.Keys
        invariant objects == PendingFor(old(objects), TokensOf(subscribers, subscribers.Keys - rest), pending)
        invariant ready == old(ready) + KeysOf(subscribers.Keys - rest, box)
        invariant visited == old(visited) + |KeysOf(subscribers.Keys - rest, box)|
        invariant marked || rest == subscribers.Keys
      {
        var c :| c in rest;
        ghost var done := subscribers.Keys - rest;
        rest := rest - {c};
        assert subscribers.Keys - rest == done + {c};
        SubscriberKnown(r, max, box, c);
        OneMorePending(old(objects), subscribers, done, c, box, pending);
        OneMoreKey(done, c, box);
        visited := visited + 1;
        var token := subscribers[c];
        objects := objects[token := objects[token].(pending := pending)];
        ready := ready + {Key(c, box)};
        marked := true;
      }
      assert subscribers.Keys - rest == subscribers.Keys;
      PendingEnds(boxes, old(objects), box, pending);
      NoEmptyBox(r, max, box);
    }

    method Retired(box: nat)
      requires Valid()
      modifies this`boxes, this`held, this`count, this`ready, this`visited
      ensures Valid() && State() == RendezvousPush.DropBox(old(State()), box)
      ensures visited + count == old(visited + count)
    {
      DropBox(box);
    }

    /** The first ready subscription that still stands, its mark and the stale marks before it dropped. */
    method TakeReady() returns (taken: Option<Key>, token: nat, pending: nat)
      requires Valid()
      modifies this`ready
      ensures taken.None? ==> State() == old(State()).(ready := {}) && forall k :: k in old(ready) ==> !Standing(boxes, k)
      ensures taken.Some? ==>
                && StandsAs(boxes, taken.value, token) && token in objects && pending == objects[token].pending
                && CanTake(old(State()), taken.value, old(ready) - ready - {taken.value})
                && State() == Take(old(State()), taken.value, old(ready) - ready - {taken.value})
    {
      hide RegistryInv, Counted, StandingKeys, Entries, Heap.IsHeap;
      ghost var r := State();
      while ready != {}
        invariant ready <= old(ready) && forall k :: k in old(ready) - ready ==> !Standing(boxes, k)
        decreases |ready|
      {
        var candidate :| candidate in ready;
        ready := ready - {candidate};
        if candidate.box in boxes && candidate.connection in boxes[candidate.box].subscribers {
          TokenKnown(r, max, candidate);
          var t := boxes[candidate.box].subscribers[candidate.connection];
          assert old(ready) - {candidate} - (old(ready) - ready - {candidate}) == ready;
          return Some(candidate), t, objects[t].pending;
        }
      }
      return None, 0, 0;
    }

    /** The push has answered: a refused one ends the subscription it was taken for. */
    method AfterPush(key: Key, owed: nat, delivered: bool)
      requires Valid()
      modifies this`boxes, this`held, this`count, this`ready, this`pushed, this`dropped
      ensures Valid() && State() == Sent(old(State()), key, owed, delivered)
      ensures pushed == old(pushed) + (if StandsAs(old(boxes), key, owed) && delivered then 1 else 0)
      ensures dropped == old(dropped) + (if StandsAs(old(boxes), key, owed) && !delivered then 1 else 0)
    {
      hide RegistryInv, Counted, StandingKeys, Entries, Heap.IsHeap;
      if key.box in boxes && key.connection in boxes[key.box].subscribers && boxes[key.box].subscribers[key.connection] == owed {
        if delivered {
          pushed := pushed + 1;
        } else {
          Remove(key);
          dropped := dropped + 1;
        }
      }
    }
  }

  lemma ClaimKeepsRegistry(r: Registry, max: int, key: Key)
    requires RegistryInv(r, max) && Standing(r.boxes, key)
    ensures RegistryInv(r.(objects := ClaimedAgain(r.objects, TokenAt(r.boxes, key))), max)
  {
    hide BoxesSound, Bounded, ReadyStands, Scheduled;
    TokenKnown(r, max, key);
  }

  lemma RewriteKeepsRegistry(r: Registry, max: int, token: nat, sub: Sub)
    requires RegistryInv(r, max) && token in r.objects
    ensures RegistryInv(r.(objects := r.objects[token := sub]), max)
  {
    hide BoxesSound, Bounded, ReadyStands, Scheduled;
    assert r.objects[token := sub].Keys == r.objects.Keys;
  }

  lemma NoEmptyBox(r: Registry, max: int, box: nat)
    requires RegistryInv(r, max) && box in r.boxes
    ensures r.boxes[box].subscribers.Keys != {}
  {
    hide Bounded, Scheduled, ReadyStands;
    assert r.boxes[box].subscribers != map[];
  }
}
