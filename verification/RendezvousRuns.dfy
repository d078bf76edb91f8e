/**
 Runs of the rendezvous push registry: Collects that claim a subscription, write, and settle the
 claim later; tellings of deposits and of retires, which the store has already answered; and the
 delivery loop that sends off the lock. A telling names a box by its id alone.
 */
module RendezvousRuns {
  import opened Common
  import opened RendezvousPush

  /** A Collect that has claimed a subscription and whose write has not answered yet. */
  datatype Collect = Collect(key: Key, token: nat)

  /** `Elsewhere`: the loop has left this half and is delivering group pushes. */
  datatype Loop = Waiting | Draining | Sending(key: Key, token: nat) | Elsewhere

  /**
   `kept` are the subscriptions on which the write of some Collect took; `owing` those told of a
   deposit since they were last taken for a push; `waking` counts depositors that have marked and not
   yet sent the wake-up.
   */
  datatype System = System(
    r: Registry, collects: map<nat, Collect>, kept: set<nat>, owing: set<nat>, loop: Loop, signal: bool, waking: nat)

  datatype Event =
    | Begin(id: nat, key: Key, expire: Time, now: Time)
    | Settled(id: nat, taken: bool)
    | TellDeposit(box: nat, pending: nat, now: Time)
    | TellRetire(box: nat)
    | WakeUp
    | GroupWakeUp
    | LoopWakes
    | LoopTakes(key: Key, stale: set<Key>)
    | LoopSent(delivered: bool)
    | LoopLeaves
    | LoopSleeps

  predicate Enabled(s: System, e: Event) {
    match e
    case Begin(id, _, _, _) => id !in s.collects
    case Settled(id, _) => id in s.collects
    case WakeUp => 0 < s.waking
    case LoopWakes => s.loop.Waiting? && s.signal
    case LoopTakes(key, stale) => s.loop.Draining? && CanTake(s.r, key, stale)
    case LoopSent(_) => s.loop.Sending?
    case LoopLeaves => s.loop.Draining? && forall k :: k in s.r.ready ==> !Standing(s.r.boxes, k)
    case LoopSleeps => s.loop.Elsewhere?
    case _ => true
  }

  function TokensAt(boxes: Boxes, box: nat): set<nat> {
    if box in boxes then boxes[box].subscribers.Values else {}
  }

  function Step(max: int, s: System, e: Event): System
    requires Enabled(s, e)
  {
    match e
    case Begin(id, key, expire, now) =>
      var (r', outcome) := Subscribe(s.r, max, key, expire, now);
      s.(r := r', collects := if outcome.Claimed? then s.collects[id := Collect(key, outcome.token)] else s.collects)
    case Settled(id, taken) =>
      var c := s.collects[id];
      s.(r := Settle(s.r, c.key, c.token, taken), collects := s.collects - {id}, kept := if taken then s.kept + {c.token} else s.kept)
    case TellDeposit(box, pending, now) =>
      var r' := Deposited(s.r, box, pending, now);
      s.(r := r', owing := s.owing + TokensAt(r'.boxes, box), waking := if box in r'.boxes then s.waking + 1 else s.waking)
    case TellRetire(box) => s.(r := DropBox(s.r, box))
    case WakeUp => s.(waking := s.waking - 1, signal := true)
    case GroupWakeUp => s.(signal := true)
    case LoopWakes => s.(signal := false, loop := Draining)
    case LoopTakes(key, stale) =>
      s.(r := Take(s.r, key, stale), loop := Sending(key, TokenAt(s.r.boxes, key)), owing := s.owing - {TokenAt(s.r.boxes, key)})
    case LoopSent(delivered) => s.(r := Sent(s.r, s.loop.key, s.loop.token, delivered), loop := Draining)
    case LoopLeaves => s.(r := s.r.(ready := {}), loop := Elsewhere)
    case LoopSleeps => s.(loop := Waiting)
  }

  // ---- what every reachable system satisfies ----

  /** The unsettled Collects holding one subscription object. */
  function Holding(collects: map<nat, Collect>, token: nat): set<nat> {
    set id | id in collects && collects[id].token == token
  }

  ghost predicate ClaimExact(sub: Sub, collects: map<nat, Collect>, kept: set<nat>, token: nat) {
    && sub.claims == |Holding(collects, token)|
    && (sub.kept <==> token in kept)
    && (sub.kept || Holding(collects, token) != {})
  }

  ghost predicate ClaimsExact(r: Registry, collects: map<nat, Collect>, kept: set<nat>) {
    forall k :: Standing(r.boxes, k) && TokenAt(r.boxes, k) in r.objects ==>
                  ClaimExact(r.objects[TokenAt(r.boxes, k)], collects, kept, TokenAt(r.boxes, k))
  }

  /** An object stands at the key it was made for, if it stands. */
  ghost predicate StandsOnlyAt(boxes: Boxes, token: nat, key: Key) {
    forall k :: StandsAs(boxes, k, token) ==> k == key
  }

  ghost predicate NamesKnown(s: System) {
    && (forall id :: id in s.collects ==> s.collects[id].token in s.r.objects && StandsOnlyAt(s.r.boxes, s.collects[id].token, s.collects[id].key))
    && (s.loop.Sending? ==> s.loop.token in s.r.objects && StandsOnlyAt(s.r.boxes, s.loop.token, s.loop.key))
    && s.kept <= s.r.objects.Keys && s.owing <= s.r.objects.Keys
  }

  /** A standing subscription is marked ready exactly while a telling of a deposit has not been taken for a push. */
  ghost predicate ReadyIsOwing(r: Registry, owing: set<nat>) {
    forall k :: Standing(r.boxes, k) ==> (k in r.ready <==> TokenAt(r.boxes, k) in owing)
  }

  ghost predicate WillWake(s: System) {
    s.r.ready != {} ==> s.loop.Draining? || s.loop.Sending? || s.signal || 0 < s.waking
  }

  ghost predicate SystemInv(max: int, s: System) {
    && RegistryInv(s.r, max) && ClaimsExact(s.r, s.collects, s.kept) && NamesKnown(s) && ReadyIsOwing(s.r, s.owing) && WillWake(s)
  }

  // ---- ending subscriptions keeps it all ----

  ghost predicate Shrunk(r: Registry, r': Registry) {
    && Part(r'.boxes, r.boxes) && r'.objects == r.objects && r'.allocations == r.allocations && r'.ready <= r.ready
    && (forall k :: Standing(r'.boxes, k) && k in r.ready ==> k in r'.ready)
  }

  lemma PartStandsOnlyAt(boxes': Boxes, boxes: Boxes, token: nat, key: Key)
    requires Part(boxes', boxes) && StandsOnlyAt(boxes, token, key)
    ensures StandsOnlyAt(boxes', token, key)
  {
    forall k | StandsAs(boxes', k, token) ensures k == key { assert StandsAs(boxes, k, token); }
  }

  lemma ShrunkKeepsInv(max: int, s: System, r': Registry)
    requires SystemInv(max, s) && Shrunk(s.r, r') && RegistryInv(r', max)
    ensures SystemInv(max, s.(r := r'))
  {
    hide RegistryInv, Standing, TokenAt, ClaimExact;
    forall token, key | StandsOnlyAt(s.r.boxes, token, key) ensures StandsOnlyAt(r'.boxes, token, key) {
      PartStandsOnlyAt(r'.boxes, s.r.boxes, token, key);
    }
  }

  lemma PruneShrinks(r: Registry, max: int, now: Time)
    requires RegistryInv(r, max)
    ensures Shrunk(r, Prune(r, now))
  {
    hide Bounded, Scheduled;
  }

  lemma DropBoxShrinks(r: Registry, max: int, box: nat)
    requires RegistryInv(r, max)
    ensures Shrunk(r, DropBox(r, box))
  {
    hide Bounded, Scheduled;
  }

  lemma RemoveShrinks(r: Registry, max: int, key: Key)
    requires RegistryInv(r, max)
    ensures Shrunk(r, Remove(r, key))
  {
    hide Bounded, Scheduled;
    if Standing(r.boxes, key) {
      WithoutIsPart(r.boxes, key);
      WithoutStands(r.boxes, key, key);
    }
  }

  lemma RegistryOf(max: int, s: System)
    requires SystemInv(max, s)
    ensures RegistryInv(s.r, max)
  {
  }

  lemma PruneStepKeepsInv(max: int, s: System, now: Time)
    requires SystemInv(max, s)
    ensures SystemInv(max, s.(r := Prune(s.r, now)))
  {
    hide SystemInv, RegistryInv, Shrunk, Prune;
    RegistryOf(max, s);
    PruneKeepsInv(s.r, max, now);
    PruneShrinks(s.r, max, now);
    ShrunkKeepsInv(max, s, Prune(s.r, now));
  }

  lemma DropStepKeepsInv(max: int, s: System, box: nat)
    requires SystemInv(max, s)
    ensures SystemInv(max, s.(r := DropBox(s.r, box)))
  {
    hide SystemInv, RegistryInv, Shrunk, DropBox;
    RegistryOf(max, s);
    DropBoxKeepsInv(s.r, max, box);
    DropBoxShrinks(s.r, max, box);
    ShrunkKeepsInv(max, s, DropBox(s.r, box));
  }

  lemma RemoveStepKeepsInv(max: int, s: System, key: Key)
    requires SystemInv(max, s)
    ensures SystemInv(max, s.(r := Remove(s.r, key)))
  {
    hide SystemInv, RegistryInv, Shrunk, Remove;
    RegistryOf(max, s);
    RemoveKeepsInv(s.r, max, key);
    RemoveShrinks(s.r, max, key);
    ShrunkKeepsInv(max, s, Remove(s.r, key));
  }

  lemma ClearedStepKeepsInv(max: int, s: System, box: nat, expire: Time, now: Time)
    requires SystemInv(max, s)
    ensures SystemInv(max, s.(r := Cleared(s.r, box, expire, now)))
  {
    hide SystemInv, Prune, DropBox;
    PruneStepKeepsInv(max, s, now);
    DropStepKeepsInv(max, s.(r := Prune(s.r, now)), box);
  }

  // ---- claiming ----

  lemma OneMoreHolding(collects: map<nat, Collect>, id: nat, c: Collect, token: nat)
    requires id !in collects
    ensures Holding(collects[id := c], token) == Holding(collects, token) + (if token == c.token then {id} else {})
    ensures |Holding(collects[id := c], token)| == |Holding(collects, token)| + (if token == c.token then 1 else 0)
  {
  }

  lemma ClaimKeepsExact(max: int, s: System, id: nat, key: Key)
    requires SystemInv(max, s) && id !in s.collects && Standing(s.r.boxes, key)
    ensures var token := TokenAt(s.r.boxes, key);
            ClaimsExact(s.r.(objects := ClaimedAgain(s.r.objects, token)), s.collects[id := Collect(key, token)], s.kept)
  {
    hide Bounded, Scheduled, Holding, NamesKnown, ReadyIsOwing;
    var token := TokenAt(s.r.boxes, key);
    var objects' := ClaimedAgain(s.r.objects, token);
    forall k | Standing(s.r.boxes, k)
      ensures ClaimExact(objects'[TokenAt(s.r.boxes, k)], s.collects[id := Collect(key, token)], s.kept, TokenAt(s.r.boxes, k))
    {
      OneMoreHolding(s.collects, id, Collect(key, token), TokenAt(s.r.boxes, k));
      assert ClaimExact(s.r.objects[TokenAt(s.r.boxes, k)], s.collects, s.kept, TokenAt(s.r.boxes, k));
    }
  }

  lemma ClaimKeepsInv(max: int, s: System, id: nat, key: Key)
    requires SystemInv(max, s) && id !in s.collects && Standing(s.r.boxes, key)
    ensures var token := TokenAt(s.r.boxes, key);
            SystemInv(max, s.(r := s.r.(objects := ClaimedAgain(s.r.objects, token)), collects := s.collects[id := Collect(key, token)]))
  {
    hide Bounded, Scheduled, ClaimsExact;
    ClaimKeepsExact(max, s, id, key);
  }

  // ---- making ----

  lemma MadeOnlyAt(r: Registry, key: Key, expire: Time, token: nat, at: Key)
    requires StandsOnlyAt(r.boxes, token, at) && token != r.allocations
    ensures StandsOnlyAt(Made(r, key, expire).boxes, token, at)
  {
    hide Made, Standing, TokenAt;
    forall k | StandsAs(Made(r, key, expire).boxes, k, token) ensures k == at {
      MadeStands(r, key, expire, k);
      assert StandsAs(r.boxes, k, token);
    }
  }

  lemma FreshStandsOnlyAt(r: Registry, max: int, key: Key, expire: Time)
    requires RegistryInv(r, max)
    ensures StandsOnlyAt(Made(r, key, expire).boxes, r.allocations, key)
  {
    hide Made, Bounded, Scheduled;
    forall k | StandsAs(Made(r, key, expire).boxes, k, r.allocations) ensures k == key {
      MadeStands(r, key, expire, k);
    }
  }

  lemma MadeKeepsNames(max: int, s: System, id: nat, key: Key, expire: Time)
    requires SystemInv(max, s) && id !in s.collects
    ensures NamesKnown(s.(r := Made(s.r, key, expire), collects := s.collects[id := Collect(key, s.r.allocations)]))
  {
    hide StandsOnlyAt, Bounded, Scheduled, ClaimsExact, ReadyIsOwing;
    FreshStandsOnlyAt(s.r, max, key, expire);
    forall j | j in s.collects ensures StandsOnlyAt(Made(s.r, key, expire).boxes, s.collects[j].token, s.collects[j].key) {
      MadeOnlyAt(s.r, key, expire, s.collects[j].token, s.collects[j].key);
    }
    if s.loop.Sending? { MadeOnlyAt(s.r, key, expire, s.loop.token, s.loop.key); }
  }

  /** Nobody held the object before it was made. */
  lemma FreshIsUnheld(max: int, s: System, key: Key, id: nat)
    requires SystemInv(max, s) && id !in s.collects
    ensures s.r.allocations !in s.r.objects && s.r.allocations !in s.kept && s.r.allocations !in s.owing
    ensures Holding(s.collects[id := Collect(key, s.r.allocations)], s.r.allocations) == {id}
  {
    hide Bounded, Scheduled, ClaimsExact, ReadyIsOwing;
    assert s.r.allocations !in s.r.objects;
  }

  lemma MadeKeepsExact(max: int, s: System, id: nat, key: Key, expire: Time)
    requires SystemInv(max, s) && id !in s.collects && !Standing(s.r.boxes, key)
    ensures var r' := Made(s.r, key, expire);
            && ClaimsExact(r', s.collects[id := Collect(key, s.r.allocations)], s.kept)
            && ReadyIsOwing(r', s.owing)
  {
    hide Holding, Bounded, Scheduled, Standing, TokenAt, NamesKnown;
    var r', collects' := Made(s.r, key, expire), s.collects[id := Collect(key, s.r.allocations)];
    FreshIsUnheld(max, s, key, id);
    forall k | Standing(r'.boxes, k)
      ensures TokenAt(r'.boxes, k) in r'.objects && ClaimExact(r'.objects[TokenAt(r'.boxes, k)], collects', s.kept, TokenAt(r'.boxes, k))
      ensures k in r'.ready <==> TokenAt(r'.boxes, k) in s.owing
    {
      MadeStands(s.r, key, expire, k);
      if k != key {
        OneMoreHolding(s.collects, id, Collect(key, s.r.allocations), TokenAt(r'.boxes, k));
        assert ClaimExact(s.r.objects[TokenAt(s.r.boxes, k)], s.collects, s.kept, TokenAt(s.r.boxes, k));
      }
    }
  }

  lemma MakeKeepsInv(max: int, s: System, id: nat, key: Key, expire: Time)
    requires SystemInv(max, s) && id !in s.collects && !Standing(s.r.boxes, key) && |Held(s.r.boxes, key.connection)| < max
    ensures SystemInv(max, s.(r := Made(s.r, key, expire), collects := s.collects[id := Collect(key, s.r.allocations)]))
  {
    hide RegistryInv, ClaimsExact, NamesKnown, ReadyIsOwing;
    MadeKeepsInv(s.r, max, key, expire);
    MadeKeepsNames(max, s, id, key, expire);
    MadeKeepsExact(max, s, id, key, expire);
  }

  lemma BeginKeepsInv(max: int, s: System, id: nat, key: Key, expire: Time, now: Time)
    requires SystemInv(max, s) && id !in s.collects
    ensures SystemInv(max, Step(max, s, Begin(id, key, expire, now)))
  {
    hide SystemInv, Cleared, Made, Held, Standing, TokenAt, ClaimedAgain;
    ClearedStepKeepsInv(max, s, key.box, expire, now);
    var s1 := s.(r := Cleared(s.r, key.box, expire, now));
    if Standing(s1.r.boxes, key) {
      ClaimKeepsInv(max, s1, id, key);
    } else if |Held(s1.r.boxes, key.connection)| < max {
      MakeKeepsInv(max, s1, id, key, expire);
    }
  }

  // ---- settling ----

  lemma OneFewerHolding(collects: map<nat, Collect>, id: nat, token: nat)
    requires id in collects
    ensures Holding(collects - {id}, token) == Holding(collects, token) - {id}
    ensures |Holding(collects - {id}, token)| == |Holding(collects, token)| - (if token == collects[id].token then 1 else 0)
  {
    var after := Holding(collects - {id}, token);
    assert after == Holding(collects, token) - {id};
    if token == collects[id].token {
      assert Holding(collects, token) == after + {id};
    } else {
      assert Holding(collects, token) == after;
    }
  }

  /** The claim ends and what it claimed no longer stands: nothing standing counted it. */
  lemma SettleElsewhereKeepsInv(max: int, s: System, id: nat, taken: bool)
    requires SystemInv(max, s) && id in s.collects
    requires var c := s.collects[id]; !StandsAs(s.r.boxes, c.key, c.token)
    ensures var c := s.collects[id];
            SystemInv(max, s.(collects := s.collects - {id}, kept := if taken then s.kept + {c.token} else s.kept))
  {
    hide RegistryInv, Holding, ReadyIsOwing;
    var c := s.collects[id];
    var s' := s.(collects := s.collects - {id}, kept := if taken then s.kept + {c.token} else s.kept);
    assert StandsOnlyAt(s.r.boxes, c.token, c.key);
    forall k | Standing(s.r.boxes, k) && TokenAt(s.r.boxes, k) in s.r.objects
      ensures ClaimExact(s.r.objects[TokenAt(s.r.boxes, k)], s'.collects, s'.kept, TokenAt(s.r.boxes, k))
    {
      assert StandsAs(s.r.boxes, k, TokenAt(s.r.boxes, k));
      OneFewerHolding(s.collects, id, TokenAt(s.r.boxes, k));
      assert ClaimExact(s.r.objects[TokenAt(s.r.boxes, k)], s.collects, s.kept, TokenAt(s.r.boxes, k));
    }
  }

  /** The object with its claim taken off, before it is decided whether it ends. */
  function Unclaimed(s: System, id: nat, taken: bool): System
    requires id in s.collects && s.collects[id].token in s.r.objects
  {
    var token := s.collects[id].token;
    var sub := s.r.objects[token];
    s.(r := s.r.(objects := s.r.objects[token := sub.(claims := sub.claims - 1, kept := sub.kept || taken)]),
       collects := s.collects - {id}, kept := if taken then s.kept + {token} else s.kept)
  }

  /** Every standing subscription is counted right, though the one just unclaimed may be held by none. */
  lemma UnclaimedCounts(max: int, s: System, id: nat, taken: bool, k: Key)
    requires SystemInv(max, s) && id in s.collects && Standing(s.r.boxes, k)
    ensures s.collects[id].token in s.r.objects && TokenAt(s.r.boxes, k) in s.r.objects
    ensures var s', t := Unclaimed(s, id, taken), TokenAt(s.r.boxes, k);
            && s'.r.objects[t].claims == |Holding(s'.collects, t)|
            && (s'.r.objects[t].kept <==> t in s'.kept)
            && (t != s.collects[id].token ==> ClaimExact(s'.r.objects[t], s'.collects, s'.kept, t))
  {
    hide Holding, ReadyIsOwing, Bounded, Scheduled;
    var t := TokenAt(s.r.boxes, k);
    OneFewerHolding(s.collects, id, t);
    assert ClaimExact(s.r.objects[t], s.collects, s.kept, t);
  }

  /** It stays: some Collect kept it, or one is still to settle. */
  lemma UnclaimedKeepsInv(max: int, s: System, id: nat, taken: bool)
    requires SystemInv(max, s) && id in s.collects
    requires var c := s.collects[id];
             StandsAs(s.r.boxes, c.key, c.token) && (taken || c.token in s.kept || Holding(s.collects, c.token) != {id})
    ensures s.collects[id].token in s.r.objects && SystemInv(max, Unclaimed(s, id, taken))
  {
    hide Holding, Bounded, Scheduled;
    var s' := Unclaimed(s, id, taken);
    assert s'.r.objects.Keys == s.r.objects.Keys;
    HeldByItself(s.collects, id);
    forall k | Standing(s.r.boxes, k)
      ensures ClaimExact(s'.r.objects[TokenAt(s.r.boxes, k)], s'.collects, s'.kept, TokenAt(s.r.boxes, k))
    {
      UnclaimedCounts(max, s, id, taken, k);
      OneFewerHolding(s.collects, id, TokenAt(s.r.boxes, k));
    }
  }

  lemma HeldByItself(collects: map<nat, Collect>, id: nat)
    requires id in collects
    ensures id in Holding(collects, collects[id].token)
    ensures Holding(collects, collects[id].token) != {id} ==> Holding(collects, collects[id].token) - {id} != {}
  {
  }

  /** It ends: the last Collect holding it failed and none kept it. */
  lemma LastClaimKeepsInv(max: int, s: System, id: nat)
    requires SystemInv(max, s) && id in s.collects
    requires var c := s.collects[id];
             StandsAs(s.r.boxes, c.key, c.token) && c.token !in s.kept && Holding(s.collects, c.token) == {id}
    ensures s.collects[id].token in s.r.objects
    ensures var s1 := Unclaimed(s, id, false); SystemInv(max, s1.(r := Remove(s1.r, s.collects[id].key)))
  {
    hide Holding, Bounded, Scheduled, BoxesWithout, ClaimExact;
    var c := s.collects[id];
    var s1 := s.(r := Remove(s.r, c.key));
    RemoveStepKeepsInv(max, s, c.key);
    forall k ensures Standing(s1.r.boxes, k) <==> Standing(s.r.boxes, k) && k != c.key { WithoutStands(s.r.boxes, c.key, k); }
    SettleElsewhereKeepsInv(max, s1, id, false);
    var s2 := s1.(collects := s.collects - {id});
    var u := Unclaimed(s, id, false);
    ForgottenKeepsInv(max, s2, c.token, u.r.objects[c.token]);
  }

  /** What an object that no longer stands says matters to nothing. */
  lemma ForgottenKeepsInv(max: int, s: System, token: nat, sub: Sub)
    requires SystemInv(max, s) && token in s.r.objects && forall k :: !StandsAs(s.r.boxes, k, token)
    ensures SystemInv(max, s.(r := s.r.(objects := s.r.objects[token := sub])))
  {
    hide ClaimExact, Bounded, Scheduled;
    assert s.r.objects[token := sub].Keys == s.r.objects.Keys;
    forall k | Standing(s.r.boxes, k) ensures TokenAt(s.r.boxes, k) != token { assert !StandsAs(s.r.boxes, k, token); }
  }

  /** The object's own count decides as the unsettled Collects do. */
  lemma SettleDecides(max: int, s: System, id: nat, taken: bool)
    requires SystemInv(max, s) && id in s.collects
    requires var c := s.collects[id]; StandsAs(s.r.boxes, c.key, c.token)
    ensures var c := s.collects[id];
            && c.token in s.r.objects
            && (var u := Unclaimed(s, id, taken);
                var ends := !taken && c.token !in s.kept && Holding(s.collects, c.token) == {id};
                Step(max, s, Settled(id, taken)) == if ends then u.(r := Remove(u.r, c.key)) else u)
  {
    hide Bounded, Scheduled, Remove, ReadyIsOwing, Holding;
    var c := s.collects[id];
    UnclaimedCounts(max, s, id, taken, c.key);
    OneFewerHolding(s.collects, id, c.token);
    HeldByItself(s.collects, id);
  }

  lemma SettledKeepsInv(max: int, s: System, id: nat, taken: bool)
    requires SystemInv(max, s) && id in s.collects
    ensures SystemInv(max, Step(max, s, Settled(id, taken)))
  {
    hide SystemInv, Unclaimed, Remove, Holding;
    var c := s.collects[id];
    if !StandsAs(s.r.boxes, c.key, c.token) {
      SettleElsewhereKeepsInv(max, s, id, taken);
    } else {
      SettleDecides(max, s, id, taken);
      if !taken && c.token !in s.kept && Holding(s.collects, c.token) == {id} {
        LastClaimKeepsInv(max, s, id);
      } else {
        UnclaimedKeepsInv(max, s, id, taken);
      }
    }
  }

  // ---- deposits and the loop ----

  /** A telling reaches the subscribers at its id and no others. */
  lemma MarkReaches(r: Registry, max: int, box: nat, pending: nat, k: Key)
    requires RegistryInv(r, max) && Standing(r.boxes, k)
    ensures TokenAt(r.boxes, k) in TokensAt(r.boxes, box) <==> k.box == box
    ensures k in KeysAt(r.boxes, box) <==> k.box == box
    ensures var t, objects' := TokenAt(r.boxes, k), Pending(r.boxes, r.objects, box, pending);
            t in r.objects && t in objects' && objects'[t] == if k.box == box then r.objects[t].(pending := pending) else r.objects[t]
  {
    hide Bounded, Scheduled;
    if TokenAt(r.boxes, k) in TokensAt(r.boxes, box) {
      var c :| c in r.boxes[box].subscribers && r.boxes[box].subscribers[c] == TokenAt(r.boxes, k);
      assert Standing(r.boxes, Key(c, box)) && TokenAt(r.boxes, Key(c, box)) == TokenAt(r.boxes, k);
    }
  }

  function Marked(s: System, box: nat, pending: nat): System {
    s.(r := s.r.(objects := Pending(s.r.boxes, s.r.objects, box, pending), ready := s.r.ready + KeysAt(s.r.boxes, box)),
       owing := s.owing + TokensAt(s.r.boxes, box), waking := if box in s.r.boxes then s.waking + 1 else s.waking)
  }

  lemma MarkKeepsClaims(max: int, s: System, box: nat, pending: nat)
    requires SystemInv(max, s)
    ensures var s' := Marked(s, box, pending);
            ClaimsExact(s'.r, s'.collects, s'.kept) && ReadyIsOwing(s'.r, s'.owing)
  {
    hide RegistryInv, Holding, Pending, KeysAt, TokensAt, Standing, TokenAt, NamesKnown;
    var s' := Marked(s, box, pending);
    forall k | Standing(s.r.boxes, k)
      ensures k in s'.r.ready <==> TokenAt(s.r.boxes, k) in s'.owing
      ensures TokenAt(s.r.boxes, k) in s'.r.objects
      ensures ClaimExact(s'.r.objects[TokenAt(s.r.boxes, k)], s.collects, s.kept, TokenAt(s.r.boxes, k))
    {
      MarkReaches(s.r, max, box, pending, k);
      assert ClaimExact(s.r.objects[TokenAt(s.r.boxes, k)], s.collects, s.kept, TokenAt(s.r.boxes, k));
    }
  }

  lemma MarkKeepsInv(max: int, s: System, box: nat, pending: nat)
    requires SystemInv(max, s)
    ensures SystemInv(max, Marked(s, box, pending))
  {
    hide Bounded, Scheduled, ClaimsExact, ReadyIsOwing;
    MarkKeepsClaims(max, s, box, pending);
    var s' := Marked(s, box, pending);
    assert s'.r.objects.Keys == s.r.objects.Keys;
    if box !in s.r.boxes { assert s'.r.ready == s.r.ready; }
    forall t | t in TokensAt(s.r.boxes, box) ensures t in s.r.objects {
      var c :| c in s.r.boxes[box].subscribers && s.r.boxes[box].subscribers[c] == t;
      assert Standing(s.r.boxes, Key(c, box)) && TokenAt(s.r.boxes, Key(c, box)) == t;
    }
  }

  lemma DepositKeepsInv(max: int, s: System, box: nat, pending: nat, now: Time)
    requires SystemInv(max, s)
    ensures SystemInv(max, Step(max, s, TellDeposit(box, pending, now)))
  {
    hide SystemInv, Prune, Pending, KeysAt, TokensAt;
    PruneStepKeepsInv(max, s, now);
    MarkKeepsInv(max, s.(r := Prune(s.r, now)), box, pending);
  }

  lemma TakesKeepsInv(max: int, s: System, key: Key, stale: set<Key>)
    requires SystemInv(max, s) && Enabled(s, LoopTakes(key, stale))
    ensures SystemInv(max, Step(max, s, LoopTakes(key, stale)))
  {
    hide Bounded, Scheduled, ClaimExact;
  }

  lemma SentKeepsInv(max: int, s: System, delivered: bool)
    requires SystemInv(max, s) && s.loop.Sending?
    ensures SystemInv(max, Step(max, s, LoopSent(delivered)))
  {
    hide SystemInv, RegistryInv, Remove;
    RemoveStepKeepsInv(max, s, s.loop.key);
    LandedKeepsInv(max, s);
    LandedKeepsInv(max, s.(r := Remove(s.r, s.loop.key)));
  }

  lemma LandedKeepsInv(max: int, s: System)
    requires SystemInv(max, s) && s.loop.Sending?
    ensures SystemInv(max, s.(loop := Draining))
  {
    hide RegistryInv, ClaimsExact, ReadyIsOwing;
  }

  lemma QuietKeepsInv(max: int, s: System, e: Event)
    requires SystemInv(max, s) && Enabled(s, e)
    requires e.WakeUp? || e.GroupWakeUp? || e.LoopWakes? || e.LoopLeaves? || e.LoopSleeps?
    ensures SystemInv(max, Step(max, s, e))
  {
    hide ClaimsExact, Bounded, Scheduled, BoxesSound;
    if e.LoopLeaves? {
      assert s.r.ready == {};
    }
  }

  lemma StepKeepsInv(max: int, s: System, e: Event)
    requires SystemInv(max, s) && Enabled(s, e)
    ensures SystemInv(max, Step(max, s, e))
  {
    match e
    case Begin(id, key, expire, now) => BeginKeepsInv(max, s, id, key, expire, now);
    case Settled(id, taken) => SettledKeepsInv(max, s, id, taken);
    case TellDeposit(box, pending, now) => DepositKeepsInv(max, s, box, pending, now);
    case TellRetire(box) => DropStepKeepsInv(max, s, box);
    case LoopTakes(key, stale) => TakesKeepsInv(max, s, key, stale);
    case LoopSent(delivered) => SentKeepsInv(max, s, delivered);
    case _ => QuietKeepsInv(max, s, e);
  }
}
