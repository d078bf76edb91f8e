/** What whole runs of the rendezvous push registry promise. */
module RendezvousTheorems {
  import opened Common
  import opened RendezvousPush
  import opened RendezvousRuns

  const EMPTY := System(Registry(map[], {}, {}, map[], 0), map[], {}, {}, Waiting, false, 0)

  function Exec(max: int, s: System, events: seq<Event>): Option<System>
    decreases |events|
  {
    if |events| == 0 then Some(s)
    else if !Enabled(s, events[0]) then None
    else Exec(max, Step(max, s, events[0]), events[1..])
  }

  lemma {:induction false} RunKeepsInv(max: int, s: System, events: seq<Event>)
    requires SystemInv(max, s) && Exec(max, s, events).Some?
    ensures SystemInv(max, Exec(max, s, events).value)
    decreases |events|
  {
    hide SystemInv, Step, Enabled;
    if |events| != 0 {
      StepKeepsInv(max, s, events[0]);
      RunKeepsInv(max, Step(max, s, events[0]), events[1..]);
    }
  }

  lemma EveryRunKeepsInv(max: int, events: seq<Event>)
    requires Exec(max, EMPTY, events).Some?
    ensures SystemInv(max, Exec(max, EMPTY, events).value)
  {
    hide Exec;
    assert SystemInv(max, EMPTY) by {
      forall c: nat ensures Held(EMPTY.r.boxes, c) == {} {}
    }
    RunKeepsInv(max, EMPTY, events);
  }

  /**
   In every run, a standing subscription's claims are the unsettled Collects holding that very
   object, it is kept exactly when the write of one of them took, and one of the two holds it up;
   so one that every Collect failed and settled stands nowhere.
   */
  lemma ClaimsAreTheUnsettled(max: int, events: seq<Event>, key: Key)
    requires Exec(max, EMPTY, events).Some?
    ensures var s := Exec(max, EMPTY, events).value;
            Standing(s.r.boxes, key) ==>
              var t := TokenAt(s.r.boxes, key);
              && t in s.r.objects && s.r.objects[t].claims == |Holding(s.collects, t)|
              && (s.r.objects[t].kept <==> t in s.kept)
              && (t in s.kept || Holding(s.collects, t) != {})
  {
    hide Exec, Bounded, Scheduled, Holding;
    EveryRunKeepsInv(max, events);
    var s := Exec(max, EMPTY, events).value;
    if Standing(s.r.boxes, key) {
      assert ClaimExact(s.r.objects[TokenAt(s.r.boxes, key)], s.collects, s.kept, TokenAt(s.r.boxes, key));
    }
  }

  /** The indexes of every run: no empty box, no connection past its bound, only standing pushes owed, every box on the schedule. */
  lemma IndexesAgreeInEveryRun(max: int, events: seq<Event>)
    requires Exec(max, EMPTY, events).Some?
    ensures RegistryInv(Exec(max, EMPTY, events).value.r, max)
  {
    hide Exec, RegistryInv;
    EveryRunKeepsInv(max, events);
  }

  /**
   In every run a standing subscription is marked ready exactly while a telling of a deposit at its id
   has not been taken for a push, and the loop is then on it or about to be woken.
   */
  lemma NoTellingGoesUnsent(max: int, events: seq<Event>, key: Key)
    requires Exec(max, EMPTY, events).Some? && Standing(Exec(max, EMPTY, events).value.r.boxes, key)
    ensures var s := Exec(max, EMPTY, events).value;
            var t := TokenAt(s.r.boxes, key);
            && t in s.r.objects
            && (key in s.r.ready <==> t in s.owing)
            && (t in s.owing ==> s.loop.Draining? || s.loop.Sending? || s.signal || 0 < s.waking)
  {
    hide Exec, Bounded, Scheduled, ClaimsExact;
    EveryRunKeepsInv(max, events);
  }

  // ---- what ends a subscription ----

  /** The only ways a standing subscription object ends. */
  ghost predicate Ends(s: System, e: Event, key: Key, token: nat)
    requires Enabled(s, e) && Standing(s.r.boxes, key)
  {
    var expire := s.r.boxes[key.box].expire;
    match e
    case Begin(_, k, later, now) => expire <= now || (k.box == key.box && expire < later)
    case TellDeposit(_, _, now) => expire <= now
    case TellRetire(box) => box == key.box
    case LoopSent(delivered) => !delivered && s.loop.token == token
    case Settled(id, taken) =>
      !taken && s.collects[id].token == token && token !in s.kept && Holding(s.collects, token) == {id}
    case _ => false
  }

  lemma BeginEnds(max: int, s: System, e: Event, key: Key, token: nat)
    requires SystemInv(max, s) && e.Begin? && Enabled(s, e) && StandsAs(s.r.boxes, key, token)
    ensures StandsAs(Step(max, s, e).r.boxes, key, token) <==> !Ends(s, e, key, token)
  {
    hide SystemInv, Made, Held, ClaimedAgain;
    var cleared := Cleared(s.r, e.key.box, e.expire, e.now);
    assert StandsAs(cleared.boxes, key, token) <==> !Ends(s, e, key, token);
    NothingMadeAt(max, s, e, key, token);
  }

  /** A subscribe makes an object of a new number, so what it cleared does not come back. */
  lemma NothingMadeAt(max: int, s: System, e: Event, key: Key, token: nat)
    requires SystemInv(max, s) && e.Begin? && StandsAs(s.r.boxes, key, token)
    ensures var cleared := Cleared(s.r, e.key.box, e.expire, e.now);
            StandsAs(Subscribe(s.r, max, e.key, e.expire, e.now).0.boxes, key, token) <==> StandsAs(cleared.boxes, key, token)
  {
    hide Cleared, Made, Held, ClaimedAgain, Bounded, Scheduled, ClaimsExact, NamesKnown, ReadyIsOwing;
    var cleared := Cleared(s.r, e.key.box, e.expire, e.now);
    ClearedAllocates(s.r, e.key.box, e.expire, e.now);
    assert token < s.r.allocations;
    MadeStands(cleared, e.key, e.expire, key);
  }

  lemma ClearedAllocates(r: Registry, box: nat, expire: Time, now: Time)
    ensures Cleared(r, box, expire, now).allocations == r.allocations
  {
  }

  lemma SettledEnds(max: int, s: System, e: Event, key: Key, token: nat)
    requires SystemInv(max, s) && e.Settled? && Enabled(s, e) && StandsAs(s.r.boxes, key, token)
    ensures StandsAs(Step(max, s, e).r.boxes, key, token) <==> !Ends(s, e, key, token)
  {
    hide Holding, RegistryInv, ClaimsExact, ReadyIsOwing, BoxesWithout;
    var c := s.collects[e.id];
    assert StandsOnlyAt(s.r.boxes, c.token, c.key);
    if StandsAs(s.r.boxes, c.key, c.token) {
      SettleDecides(max, s, e.id, e.taken);
      WithoutStands(s.r.boxes, c.key, key);
    }
  }

  lemma SentEnds(max: int, s: System, e: Event, key: Key, token: nat)
    requires SystemInv(max, s) && e.LoopSent? && Enabled(s, e) && StandsAs(s.r.boxes, key, token)
    ensures StandsAs(Step(max, s, e).r.boxes, key, token) <==> !Ends(s, e, key, token)
  {
    hide RegistryInv, ClaimsExact, ReadyIsOwing, BoxesWithout;
    assert StandsOnlyAt(s.r.boxes, s.loop.token, s.loop.key);
    if StandsAs(s.r.boxes, s.loop.key, s.loop.token) { WithoutStands(s.r.boxes, s.loop.key, key); }
  }

  /** A step ends a subscription object exactly when it is one of those ways. */
  lemma OnlyTheseEndIt(max: int, s: System, e: Event, key: Key, token: nat)
    requires SystemInv(max, s) && Enabled(s, e) && StandsAs(s.r.boxes, key, token)
    ensures StandsAs(Step(max, s, e).r.boxes, key, token) <==> !Ends(s, e, key, token)
  {
    hide SystemInv;
    match e
    case Begin(_, _, _, _) => BeginEnds(max, s, e, key, token);
    case Settled(_, _) => SettledEnds(max, s, e, key, token);
    case LoopSent(_) => SentEnds(max, s, e, key, token);
    case _ =>
  }

  /** No step of the run is an outside end of this object: only settles could end it. */
  ghost predicate LeftAlone(max: int, s: System, events: seq<Event>, key: Key, token: nat)
    requires Exec(max, s, events).Some?
    decreases |events|
  {
    |events| != 0 ==>
      && Enabled(s, events[0])
      && (StandsAs(s.r.boxes, key, token) && !events[0].Settled? ==> !Ends(s, events[0], key, token))
      && LeftAlone(max, Step(max, s, events[0]), events[1..], key, token)
  }

  lemma KeptStays(max: int, s: System, e: Event)
    requires Enabled(s, e)
    ensures s.kept <= Step(max, s, e).kept
  {
  }

  /**
   A Collect whose write took never loses its subscription to another's failed write: once kept, it
   stands through any run in which no call finds its box expired or superseded, no retire is told at its id and no push to
   it is refused, whatever other Collects settle.
   */
  lemma {:induction false} KeptSurvivesFailures(max: int, s: System, events: seq<Event>, key: Key, token: nat)
    requires SystemInv(max, s) && Exec(max, s, events).Some?
    requires StandsAs(s.r.boxes, key, token) && token in s.kept && LeftAlone(max, s, events, key, token)
    ensures StandsAs(Exec(max, s, events).value.r.boxes, key, token)
    decreases |events|
  {
    hide SystemInv, Step, Enabled, StandsAs;
    if |events| != 0 {
      var s' := Step(max, s, events[0]);
      StepKeepsInv(max, s, events[0]);
      OnlyTheseEndIt(max, s, events[0], key, token);
      KeptStays(max, s, events[0]);
      KeptSurvivesFailures(max, s', events[1..], key, token);
    }
  }

  /** After any subscribe or deposit at `now`, no box that has expired by then remains, unless it was just made so. */
  lemma NothingExpiredStays(max: int, s: System, e: Event, box: nat)
    requires Enabled(s, e) && (e.TellDeposit? || (e.Begin? && e.now < e.expire))
    ensures box in Step(max, s, e).r.boxes ==> e.now < Step(max, s, e).r.boxes[box].expire
  {
    hide Held;
  }
}
