/**
 The rendezvous push registry: subscriptions kept by box, with a claim for every Collect that made
 or found one and has not settled yet. A subscription object is the number it was allocated under;
 the expiry order is the set of its entries here and a heap in `ExpiryHeap`.
 */
module RendezvousPush {
  import opened Common

  datatype Key = Key(connection: nat, box: nat)

  datatype Sub = Sub(claims: int, kept: bool, pending: nat)

  datatype Box = Box(expire: Time, subscribers: map<nat, nat>)

  datatype Entry = Entry(expire: Time, box: nat)

  type Boxes = map<nat, Box>

  datatype Registry = Registry(boxes: Boxes, ready: set<Key>, expiry: set<Entry>, objects: map<nat, Sub>, allocations: nat)

  /** `Gone`: the box this call was verified against is not the one standing at its id. */
  datatype Outcome = Claimed(token: nat, added: bool) | Gone | Full

  predicate Standing(boxes: Boxes, key: Key) {
    key.box in boxes && key.connection in boxes[key.box].subscribers
  }

  function TokenAt(boxes: Boxes, key: Key): nat
    requires Standing(boxes, key)
  {
    boxes[key.box].subscribers[key.connection]
  }

  predicate StandsAs(boxes: Boxes, key: Key, token: nat) {
    Standing(boxes, key) && TokenAt(boxes, key) == token
  }

  /** The subscriptions one connection holds. */
  function Held(boxes: Boxes, connection: nat): set<Key> {
    set b | b in boxes && connection in boxes[b].subscribers :: Key(connection, b)
  }

  function KeysAt(boxes: Boxes, box: nat): set<Key> {
    if box !in boxes then {} else set c | c in boxes[box].subscribers :: Key(c, box)
  }

  // ---- the steps ----

  function DropBox(r: Registry, box: nat): Registry {
    r.(boxes := r.boxes - {box}, ready := r.ready - KeysAt(r.boxes, box))
  }

  function BoxesWithout(boxes: Boxes, key: Key): Boxes
    requires Standing(boxes, key)
  {
    var left := boxes[key.box].subscribers - {key.connection};
    if left == map[] then boxes - {key.box} else boxes[key.box := boxes[key.box].(subscribers := left)]
  }

  function Remove(r: Registry, key: Key): Registry {
    if !Standing(r.boxes, key) then r
    else r.(boxes := BoxesWithout(r.boxes, key), ready := r.ready - {key})
  }

  function LiveBoxes(boxes: Boxes, now: Time): Boxes {
    map b | b in boxes && now < boxes[b].expire :: boxes[b]
  }

  /** Every box past its expiry goes, with its subscriptions and what they were owed. */
  function Prune(r: Registry, now: Time): Registry {
    r.(boxes := LiveBoxes(r.boxes, now),
       ready := (set k | k in r.ready && (Standing(r.boxes, k) ==> now < r.boxes[k.box].expire)),
       expiry := set e | e in r.expiry && now < e.expire)
  }

  function Made(r: Registry, key: Key, expire: Time): Registry {
    var box := if key.box in r.boxes then r.boxes[key.box] else Box(expire, map[]);
    r.(boxes := r.boxes[key.box := box.(subscribers := box.subscribers[key.connection := r.allocations])],
       expiry := if key.box in r.boxes then r.expiry else r.expiry + {Entry(expire, key.box)},
       objects := r.objects[r.allocations := Sub(1, false, 0)],
       allocations := r.allocations + 1)
  }

  function ClaimedAgain(objects: map<nat, Sub>, token: nat): map<nat, Sub> {
    if token in objects then objects[token := objects[token].(claims := objects[token].claims + 1)] else objects
  }

  /** The registry a subscribe compares against: what has expired is gone, and so is an earlier box at the id. */
  function Cleared(r: Registry, box: nat, expire: Time, now: Time): Registry {
    var pruned := Prune(r, now);
    if box in pruned.boxes && pruned.boxes[box].expire < expire then DropBox(pruned, box) else pruned
  }

  /** The connection's own subscription to the box is claimed once more, or a new one is made with one claim. */
  function Join(r: Registry, max: int, key: Key, expire: Time): (Registry, Outcome) {
    if Standing(r.boxes, key) then
      (r.(objects := ClaimedAgain(r.objects, TokenAt(r.boxes, key))), Claimed(TokenAt(r.boxes, key), false))
    else if max <= |Held(r.boxes, key.connection)| then (r, Full)
    else (Made(r, key, expire), Claimed(r.allocations, true))
  }

  function Subscribe(r: Registry, max: int, key: Key, expire: Time, now: Time): (Registry, Outcome) {
    var cleared := Cleared(r, key.box, expire, now);
    if key.box in cleared.boxes && expire < cleared.boxes[key.box].expire then (cleared, Gone)
    else Join(cleared, max, key, expire)
  }

  /** A claim ends, if what it claimed still stands; the last failed claim on an unkept subscription ends it. */
  function Settle(r: Registry, key: Key, token: nat, taken: bool): Registry {
    if !StandsAs(r.boxes, key, token) || token !in r.objects then r
    else
      var sub := r.objects[token];
      var settled := sub.(claims := sub.claims - 1, kept := sub.kept || taken);
      var r' := r.(objects := r.objects[token := settled]);
      if !taken && !settled.kept && settled.claims == 0 then Remove(r', key) else r'
  }

  function Pending(boxes: Boxes, objects: map<nat, Sub>, box: nat, pending: nat): map<nat, Sub> {
    map t | t in objects ::
      if box in boxes && t in boxes[box].subscribers.Values then objects[t].(pending := pending) else objects[t]
  }

  function Deposited(r: Registry, box: nat, pending: nat, now: Time): Registry {
    var pruned := Prune(r, now);
    pruned.(objects := Pending(pruned.boxes, pruned.objects, box, pending), ready := pruned.ready + KeysAt(pruned.boxes, box))
  }

  predicate CanTake(r: Registry, key: Key, stale: set<Key>) {
    key in r.ready && Standing(r.boxes, key) && stale <= r.ready && (forall k :: k in stale ==> !Standing(r.boxes, k))
  }

  function Take(r: Registry, key: Key, stale: set<Key>): Registry {
    r.(ready := r.ready - {key} - stale)
  }

  /** A refused push ends the subscription it was for, if that one still stands. */
  function Sent(r: Registry, key: Key, token: nat, delivered: bool): Registry {
    if StandsAs(r.boxes, key, token) && !delivered then Remove(r, key) else r
  }

  // ---- what every registry satisfies ----

  ghost predicate BoxesSound(boxes: Boxes, tokens: set<nat>, allocations: nat) {
    && (forall b :: b in boxes ==> boxes[b].subscribers != map[])
    && (forall k :: Standing(boxes, k) ==> TokenAt(boxes, k) in tokens)
    && (forall t :: t in tokens ==> t < allocations)
    && (forall j, k :: Standing(boxes, j) && Standing(boxes, k) && TokenAt(boxes, j) == TokenAt(boxes, k) ==> j == k)
  }

  ghost predicate Bounded(boxes: Boxes, max: int) {
    forall c: nat :: |Held(boxes, c)| <= max || Held(boxes, c) == {}
  }

  ghost predicate ReadyStands(boxes: Boxes, ready: set<Key>) {
    forall k :: k in ready ==> Standing(boxes, k)
  }

  /** Each box has an entry at its own expiry; entries of boxes that went another way may linger. */
  ghost predicate Scheduled(boxes: Boxes, expiry: set<Entry>) {
    forall b :: b in boxes ==> Entry(boxes[b].expire, b) in expiry
  }

  ghost predicate RegistryInv(r: Registry, max: int) {
    && BoxesSound(r.boxes, r.objects.Keys, r.allocations) && Bounded(r.boxes, max)
    && ReadyStands(r.boxes, r.ready) && Scheduled(r.boxes, r.expiry)
  }

  // ---- ending subscriptions ----

  ghost predicate Part(boxes': Boxes, boxes: Boxes) {
    && (forall b :: b in boxes' ==> b in boxes && boxes'[b].expire == boxes[b].expire && boxes'[b].subscribers != map[])
    && (forall k :: Standing(boxes', k) ==> Standing(boxes, k) && TokenAt(boxes', k) == TokenAt(boxes, k))
  }

  lemma PartHolds(boxes': Boxes, boxes: Boxes, connection: nat)
    requires Part(boxes', boxes)
    ensures Held(boxes', connection) <= Held(boxes, connection)
    ensures |Held(boxes', connection)| <= |Held(boxes, connection)|
  {
    forall k | k in Held(boxes', connection) ensures k in Held(boxes, connection) {
      assert Standing(boxes', k);
    }
    assert Held(boxes, connection) == Held(boxes', connection) + (Held(boxes, connection) - Held(boxes', connection));
  }

  lemma PartKeepsInv(r: Registry, r': Registry, max: int)
    requires RegistryInv(r, max) && Part(r'.boxes, r.boxes) && r'.objects.Keys == r.objects.Keys && r'.allocations == r.allocations
    requires ReadyStands(r'.boxes, r'.ready) && Scheduled(r'.boxes, r'.expiry)
    ensures RegistryInv(r', max)
  {
    hide Held;
    forall c: nat ensures |Held(r'.boxes, c)| <= max || Held(r'.boxes, c) == {} {
      PartHolds(r'.boxes, r.boxes, c);
    }
  }

  lemma DropBoxKeepsInv(r: Registry, max: int, box: nat)
    requires RegistryInv(r, max)
    ensures RegistryInv(DropBox(r, box), max)
  {
    hide Bounded, Held;
    PartKeepsInv(r, DropBox(r, box), max);
  }

  lemma WithoutStands(boxes: Boxes, key: Key, k: Key)
    requires Standing(boxes, key)
    ensures Standing(BoxesWithout(boxes, key), k) <==> Standing(boxes, k) && k != key
    ensures Standing(boxes, k) && k != key ==> TokenAt(BoxesWithout(boxes, key), k) == TokenAt(boxes, k)
  {
    var left := boxes[key.box].subscribers - {key.connection};
    if Standing(boxes, k) && k != key && k.box == key.box {
      assert k.connection in left;
    }
  }

  lemma WithoutIsPart(boxes: Boxes, key: Key)
    requires Standing(boxes, key) && forall b :: b in boxes ==> boxes[b].subscribers != map[]
    ensures Part(BoxesWithout(boxes, key), boxes)
  {
    forall k | Standing(BoxesWithout(boxes, key), k)
      ensures Standing(boxes, k) && TokenAt(BoxesWithout(boxes, key), k) == TokenAt(boxes, k)
    {
      WithoutStands(boxes, key, k);
    }
  }

  lemma RemoveKeepsInv(r: Registry, max: int, key: Key)
    requires RegistryInv(r, max)
    ensures RegistryInv(Remove(r, key), max)
  {
    hide Bounded, Held;
    if Standing(r.boxes, key) {
      WithoutIsPart(r.boxes, key);
      forall k | k in r.ready - {key} ensures Standing(BoxesWithout(r.boxes, key), k) { WithoutStands(r.boxes, key, k); }
      PartKeepsInv(r, Remove(r, key), max);
    }
  }

  lemma PruneKeepsInv(r: Registry, max: int, now: Time)
    requires RegistryInv(r, max)
    ensures RegistryInv(Prune(r, now), max)
  {
    hide Bounded, Held;
    PartKeepsInv(r, Prune(r, now), max);
  }

  lemma ClearedKeepsInv(r: Registry, max: int, box: nat, expire: Time, now: Time)
    requires RegistryInv(r, max)
    ensures RegistryInv(Cleared(r, box, expire, now), max)
  {
    hide RegistryInv, Prune, DropBox;
    PruneKeepsInv(r, max, now);
    DropBoxKeepsInv(Prune(r, now), max, box);
  }

  // ---- making and settling ----

  lemma MadeStands(r: Registry, key: Key, expire: Time, k: Key)
    ensures Standing(Made(r, key, expire).boxes, k) <==> Standing(r.boxes, k) || k == key
    ensures k == key ==> TokenAt(Made(r, key, expire).boxes, k) == r.allocations
    ensures Standing(r.boxes, k) && k != key ==> TokenAt(Made(r, key, expire).boxes, k) == TokenAt(r.boxes, k)
  {
  }

  lemma MadeIsSound(r: Registry, key: Key, expire: Time)
    requires BoxesSound(r.boxes, r.objects.Keys, r.allocations)
    ensures var r' := Made(r, key, expire); BoxesSound(r'.boxes, r'.objects.Keys, r'.allocations)
  {
    hide Standing, TokenAt;
    assert key.connection in Made(r, key, expire).boxes[key.box].subscribers;
    forall k ensures Standing(Made(r, key, expire).boxes, k) <==> Standing(r.boxes, k) || k == key { MadeStands(r, key, expire, k); }
    forall k | Standing(Made(r, key, expire).boxes, k)
      ensures TokenAt(Made(r, key, expire).boxes, k) == if k == key then r.allocations else TokenAt(r.boxes, k)
    {
      MadeStands(r, key, expire, k);
    }
  }

  lemma MadeHolds(r: Registry, key: Key, expire: Time, connection: nat)
    ensures Held(Made(r, key, expire).boxes, connection) ==
            Held(r.boxes, connection) + (if connection == key.connection then {key} else {})
  {
  }

  lemma MadeBounded(r: Registry, max: int, key: Key, expire: Time)
    requires Bounded(r.boxes, max) && |Held(r.boxes, key.connection)| < max
    ensures Bounded(Made(r, key, expire).boxes, max)
  {
    hide Held, Made;
    forall c: nat ensures |Held(Made(r, key, expire).boxes, c)| <= max || Held(Made(r, key, expire).boxes, c) == {} {
      MadeHolds(r, key, expire, c);
    }
  }

  lemma MadeKeepsInv(r: Registry, max: int, key: Key, expire: Time)
    requires RegistryInv(r, max) && !Standing(r.boxes, key) && |Held(r.boxes, key.connection)| < max
    ensures RegistryInv(Made(r, key, expire), max)
  {
    hide Bounded, Held, BoxesSound;
    MadeBounded(r, max, key, expire);
    MadeIsSound(r, key, expire);
  }

  /** A connection at its bound is refused, and nothing else a subscribe does can break an index. */
  lemma SubscribeKeepsInv(r: Registry, max: int, key: Key, expire: Time, now: Time)
    requires RegistryInv(r, max)
    ensures RegistryInv(Subscribe(r, max, key, expire, now).0, max)
  {
    hide Cleared, Made, BoxesSound, Bounded, ReadyStands, Scheduled, Held;
    ClearedKeepsInv(r, max, key.box, expire, now);
    var cleared := Cleared(r, key.box, expire, now);
    if Standing(cleared.boxes, key) {
      TokenKnown(cleared, max, key);
    } else if |Held(cleared.boxes, key.connection)| < max {
      MadeKeepsInv(cleared, max, key, expire);
    }
  }

  lemma TokenKnown(r: Registry, max: int, key: Key)
    requires RegistryInv(r, max) && Standing(r.boxes, key)
    ensures TokenAt(r.boxes, key) in r.objects
    ensures ClaimedAgain(r.objects, TokenAt(r.boxes, key)).Keys == r.objects.Keys
  {
  }

  lemma SettleKeepsInv(r: Registry, max: int, key: Key, token: nat, taken: bool)
    requires RegistryInv(r, max)
    ensures RegistryInv(Settle(r, key, token, taken), max)
  {
    hide BoxesSound, Bounded, ReadyStands, Scheduled, Remove;
    if StandsAs(r.boxes, key, token) && token in r.objects {
      var sub := r.objects[token];
      var r' := r.(objects := r.objects[token := sub.(claims := sub.claims - 1, kept := sub.kept || taken)]);
      assert r'.objects.Keys == r.objects.Keys;
      RemoveKeepsInv(r', max, key);
    }
  }

  lemma DepositedKeepsInv(r: Registry, max: int, box: nat, pending: nat, now: Time)
    requires RegistryInv(r, max)
    ensures RegistryInv(Deposited(r, box, pending, now), max)
  {
    hide Prune, BoxesSound, Bounded, Scheduled;
    PruneKeepsInv(r, max, now);
    var pruned := Prune(r, now);
    assert Pending(pruned.boxes, pruned.objects, box, pending).Keys == pruned.objects.Keys;
  }

  // ---- what a subscribe comes to ----

  /** The subscription outlives a subscribe to `box`, with this expiry, at `now`: its box is live and not an earlier one at that id. */
  predicate Outlives(boxes: Boxes, k: Key, box: nat, expire: Time, now: Time) {
    Standing(boxes, k) && now < boxes[k.box].expire && (k.box == box ==> expire <= boxes[k.box].expire)
  }

  /** A live box of a later expiry stands at the id. */
  predicate LaterStands(boxes: Boxes, box: nat, expire: Time, now: Time) {
    box in boxes && now < boxes[box].expire && expire < boxes[box].expire
  }

  function HeldStill(boxes: Boxes, connection: nat, box: nat, expire: Time, now: Time): set<Key> {
    set k | k in Held(boxes, connection) && Outlives(boxes, k, box, expire, now)
  }

  lemma ClearedStands(r: Registry, box: nat, expire: Time, now: Time, k: Key)
    ensures var cleared := Cleared(r, box, expire, now);
            && (Standing(cleared.boxes, k) <==> Outlives(r.boxes, k, box, expire, now))
            && (Standing(cleared.boxes, k) ==> TokenAt(cleared.boxes, k) == TokenAt(r.boxes, k))
  {
  }

  lemma ClearedHolds(r: Registry, connection: nat, box: nat, expire: Time, now: Time)
    ensures Held(Cleared(r, box, expire, now).boxes, connection) == HeldStill(r.boxes, connection, box, expire, now)
  {
    hide Cleared;
    var cleared := Cleared(r, box, expire, now);
    forall k ensures k in Held(cleared.boxes, connection) <==> k in HeldStill(r.boxes, connection, box, expire, now) {
      assert k in Held(cleared.boxes, connection) <==> k.connection == connection && Standing(cleared.boxes, k);
      assert k in Held(r.boxes, connection) <==> k.connection == connection && Standing(r.boxes, k);
      ClearedStands(r, box, expire, now, k);
    }
  }

  /** A connection's own live subscription is claimed again, one it lacks is made unless it holds its bound, and a call verified against an earlier box gets neither. */
  ghost predicate OutcomeIs(r: Registry, max: int, key: Key, expire: Time, now: Time, outcome: Outcome) {
    if LaterStands(r.boxes, key.box, expire, now) then outcome == Gone
    else if Outlives(r.boxes, key, key.box, expire, now) then outcome == Claimed(TokenAt(r.boxes, key), false)
    else if max <= |HeldStill(r.boxes, key.connection, key.box, expire, now)| then outcome == Full
    else outcome == Claimed(r.allocations, true)
  }

  lemma SubscribeAnswers(r: Registry, max: int, key: Key, expire: Time, now: Time)
    requires RegistryInv(r, max)
    ensures OutcomeIs(r, max, key, expire, now, Subscribe(r, max, key, expire, now).1)
  {
    ClearedStands(r, key.box, expire, now, key);
    ClearedHolds(r, key.connection, key.box, expire, now);
    ClearedBox(r, max, key.box, expire, now);
    hide Cleared, RegistryInv, Outlives, HeldStill, Made;
  }

  lemma ClearedBox(r: Registry, max: int, box: nat, expire: Time, now: Time)
    requires RegistryInv(r, max)
    ensures var cleared := Cleared(r, box, expire, now);
            && (box in cleared.boxes ==> box in r.boxes && cleared.boxes[box] == r.boxes[box])
            && (box in cleared.boxes && expire < cleared.boxes[box].expire <==> LaterStands(r.boxes, box, expire, now))
            && (box in cleared.boxes ==> expire <= cleared.boxes[box].expire)
            && cleared.objects == r.objects && cleared.allocations == r.allocations
            && cleared.ready <= r.ready
  {
    hide RegistryInv;
  }

  /**
   What a subscribe answers, and what it leaves: the subscriptions that outlive it stand under the objects
   they had, and beside them at most the one it claimed, with one claim more; one it made has that claim
   alone, is neither kept nor owed anything, and its box ends when the call said.
   */
  lemma SubscribeExactly(r: Registry, max: int, key: Key, expire: Time, now: Time)
    requires RegistryInv(r, max)
    ensures var (r', outcome) := Subscribe(r, max, key, expire, now);
            && OutcomeIs(r, max, key, expire, now, outcome)
            && (forall k :: Standing(r'.boxes, k) <==> Outlives(r.boxes, k, key.box, expire, now) || (outcome.Claimed? && k == key))
            && (forall k :: Outlives(r.boxes, k, key.box, expire, now) ==> Standing(r'.boxes, k) && TokenAt(r'.boxes, k) == TokenAt(r.boxes, k))
            && (outcome.Claimed? ==>
                  && StandsAs(r'.boxes, key, outcome.token) && r'.boxes[key.box].expire == expire && outcome.token in r'.objects
                  && r'.objects == r.objects[outcome.token := r'.objects[outcome.token]])
            && (outcome.Claimed? && outcome.added ==> r'.objects[outcome.token] == Sub(1, false, 0) && key !in r'.ready)
            && (outcome.Claimed? && !outcome.added ==>
                  outcome.token in r.objects
                  && r'.objects[outcome.token] == r.objects[outcome.token].(claims := r.objects[outcome.token].claims + 1))
            && (!outcome.Claimed? ==> r'.objects == r.objects)
  {
    SubscribeAnswers(r, max, key, expire, now);
    ClearedBox(r, max, key.box, expire, now);
    var cleared := Cleared(r, key.box, expire, now);
    var (r', outcome) := Subscribe(r, max, key, expire, now);
    ClearedReady(r, max, key.box, expire, now);
    forall k ensures Standing(cleared.boxes, k) <==> Outlives(r.boxes, k, key.box, expire, now)
             ensures Standing(cleared.boxes, k) ==> TokenAt(cleared.boxes, k) == TokenAt(r.boxes, k)
    {
      ClearedStands(r, key.box, expire, now, k);
    }
    if outcome.Claimed? {
      if Standing(r.boxes, key) { TokenKnown(r, max, key); }
      JoinedExactly(cleared, max, key, expire);
    }
  }

  lemma ClearedReady(r: Registry, max: int, box: nat, expire: Time, now: Time)
    requires RegistryInv(r, max)
    ensures ReadyStands(Cleared(r, box, expire, now).boxes, Cleared(r, box, expire, now).ready)
  {
  }

  lemma JoinedExactly(r: Registry, max: int, key: Key, expire: Time)
    requires ReadyStands(r.boxes, r.ready) && (key.box in r.boxes ==> r.boxes[key.box].expire == expire)
    requires Standing(r.boxes, key) ==> TokenAt(r.boxes, key) in r.objects
    ensures var (r', outcome) := Join(r, max, key, expire);
            outcome.Claimed? ==>
              && (forall k :: Standing(r'.boxes, k) <==> Standing(r.boxes, k) || k == key)
              && (forall k :: Standing(r.boxes, k) ==> TokenAt(r'.boxes, k) == TokenAt(r.boxes, k))
              && StandsAs(r'.boxes, key, outcome.token) && r'.boxes[key.box].expire == expire && outcome.token in r'.objects
              && r'.objects == r.objects[outcome.token := r'.objects[outcome.token]]
              && (outcome.added ==> r'.objects[outcome.token] == Sub(1, false, 0) && key !in r'.ready)
              && (!outcome.added ==> r'.objects[outcome.token] == r.objects[outcome.token].(claims := r.objects[outcome.token].claims + 1))
  {
    hide Held;
  }
}
