/**
 What the rendezvous push promises its collector, over every run of the store beside the registry:
 which deposits a subscription has been told of, what count its push carries, and whose box a telling
 or a late retire is of.
 */
module DepositPushes {
  import opened Common
  import opened Records
  import opened BoxesAndPush
  import L = LinkBoxes
  import LR = LinkBoxRuns
  import LL = LinkBoxLedger
  import P = RendezvousPush
  import R = RendezvousRuns
  import RT = RendezvousTheorems

  const START := Joint(L.Boxes(map[], map[]), map[], [], RT.EMPTY, map[], [], map[])

  lemma StartKeepsInv(max: int)
    ensures JointInv(max, START)
  {
    hide R.SystemInv;
    RT.EveryRunKeepsInv(max, []);
  }

  lemma EveryRunKeepsInv(max: int, events: seq<Event>)
    requires Exec(max, START, events).Some?
    ensures JointInv(max, Exec(max, START, events).value)
  {
    hide JointInv, Exec;
    StartKeepsInv(max);
    RunKeepsInv(max, START, events);
  }

  lemma StandingParts(max: int, j: Joint, key: P.Key)
    requires JointInv(max, j) && P.Standing(j.push.r.boxes, key)
    ensures var t := P.TokenAt(j.push.r.boxes, key);
            && t in j.subs && t in j.push.r.objects && j.subs[t].key == key
            && ToldSound(j.calls, j.subs[t]) && Complete(j.calls, j.stored, j.subs[t]) && MarkSound(j.push, j.calls, t, j.subs[t])
  {
    hide L.BoxesInv, LL.BooksBalance, CallsSound, StoredListed, CollectsMatch, ToldSound, Complete, MarkSound, R.ClaimsExact, R.NamesKnown, P.Bounded, P.Scheduled;
    var t := P.TokenAt(j.push.r.boxes, key);
    assert t in j.push.r.objects;
    assert SubSound(j.push, j.calls, j.stored, |j.births|, t, j.subs[t]);
    assert P.StandsAs(j.push.r.boxes, key, t);
  }

  /**
   In every run, of every deposit stored at its id since a standing subscription was made, no replay
   among them, the subscription has been told or the call that stored it is still to tell; it has been
   told of nothing but deposits at its id, of each once; it is marked exactly while it has been told of
   one since it was last taken, with the loop on it or about to be woken; and the push carries the
   count the last one told was answered with.
   */
  lemma EveryDepositIsTold(max: int, events: seq<Event>, key: P.Key)
    requires Exec(max, START, events).Some? && P.Standing(Exec(max, START, events).value.push.r.boxes, key)
    ensures var j := Exec(max, START, events).value;
            var t := P.TokenAt(j.push.r.boxes, key);
            && t in j.subs && t in j.push.r.objects && j.subs[t].key == key && ToldSound(j.calls, j.subs[t])
            && (forall n: nat :: j.subs[t].since <= n < |j.stored| ==>
                  && j.stored[n] in j.calls && OfDeposit(j.calls[j.stored[n]])
                  && (j.calls[j.stored[n]].deposit.site.box == key.box ==> j.calls[j.stored[n]].Stored? || j.stored[n] in j.subs[t].told))
            && (key in j.push.r.ready <==> j.subs[t].taken < |j.subs[t].told|)
            && (key in j.push.r.ready ==>
                  && (j.push.loop.Draining? || j.push.loop.Sending? || j.push.signal || 0 < j.push.waking)
                  && j.push.r.objects[t].pending == j.calls[j.subs[t].told[|j.subs[t].told| - 1]].deposit.pending)
  {
    hide Exec, L.BoxesInv, LL.BooksBalance, CallsSound, CollectsMatch, SubsSound, P.RegistryInv, R.ClaimsExact, R.NamesKnown;
    EveryRunKeepsInv(max, events);
    StandingParts(max, Exec(max, START, events).value, key);
  }

  // ---- the count ----

  lemma DepositOf(max: int, j: Joint, c: nat)
    requires JointInv(max, j) && c in j.calls && OfDeposit(j.calls[c])
    ensures DepositSound(j.b, j.ledger, j.births, j.calls[c].deposit)
  {
    hide L.BoxesInv, LL.BooksBalance, R.SystemInv, StoredListed, CollectsMatch, SubsSound, DepositSound, SiteSound;
    assert PhaseSound(j.b, j.ledger, j.births, j.calls[c]);
  }

  lemma BooksOf(max: int, j: Joint, box: nat)
    requires JointInv(max, j) && box in j.b.rows
    ensures box in j.ledger
    ensures var tally := j.ledger[box];
            && tally.taken == j.b.rows[box].nextDepositId - 1 <= 2
            && tally.taken == j.b.rows[box].depositCount + GoneFrom(tally)
  {
    hide R.SystemInv, StoredListed, CollectsMatch, SubsSound, CallsSound, L.DepositsOrdered;
    LR.SoundAt(j.b, box);
  }

  /**
   While the box a deposit was stored in stands, the count its telling carries is the count waiting
   there if and only if, since it was stored, nothing was stored in the box and nothing left it, or one
   was stored and one left.
   */
  lemma CountIsRightExactly(max: int, j: Joint, c: nat)
    requires JointInv(max, j) && c in j.calls && OfDeposit(j.calls[c])
    requires var site := j.calls[c].deposit.site; site.box in j.b.rows && NoneBorn(j.births, site.born, site.box)
    ensures var d := j.calls[c].deposit;
            && d.site.box in j.ledger
            && (var row, tally := j.b.rows[d.site.box], j.ledger[d.site.box];
                var stored, left := row.nextDepositId - 1 - d.depositId, GoneFrom(tally) - GoneFrom(d.tally);
                && 0 <= stored && 0 <= left
                && (d.pending == row.depositCount <==> (stored == 0 && left == 0) || (stored == 1 && left == 1)))
  {
    hide JointInv, LL.SameLife;
    DepositOf(max, j, c);
    BooksOf(max, j, j.calls[c].deposit.site.box);
  }

  /** The push of a marked subscription, its last telling's box still standing: right under that same condition. */
  lemma MarkedCountIsRightExactly(max: int, j: Joint, key: P.Key)
    requires JointInv(max, j) && P.Standing(j.push.r.boxes, key) && key in j.push.r.ready
    ensures var t := P.TokenAt(j.push.r.boxes, key);
            && t in j.subs && t in j.push.r.objects && j.subs[t].told != []
            && (var c := j.subs[t].told[|j.subs[t].told| - 1];
                && c in j.calls && j.calls[c].Told?
                && (var d := j.calls[c].deposit;
                    && d.site.box == key.box
                    && (key.box in j.b.rows && NoneBorn(j.births, d.site.born, key.box) ==>
                          && key.box in j.ledger
                          && (var row := j.b.rows[key.box];
                              var stored, left := row.nextDepositId - 1 - d.depositId, GoneFrom(j.ledger[key.box]) - GoneFrom(d.tally);
                              j.push.r.objects[t].pending == row.depositCount <==> (stored == 0 && left == 0) || (stored == 1 && left == 1)))))
  {
    hide JointInv, LL.SameLife, DepositSound, NoneBorn, Complete;
    StandingParts(max, j, key);
    var t := P.TokenAt(j.push.r.boxes, key);
    var c := j.subs[t].told[|j.subs[t].told| - 1];
    var site := j.calls[c].deposit.site;
    if key.box in j.b.rows && NoneBorn(j.births, site.born, key.box) { CountIsRightExactly(max, j, c); }
  }

  // ---- whose box ----

  /** Which life of an id was the newest when this many boxes had been registered. */
  function LifeIn(births: seq<nat>, n: nat, box: nat): nat
    requires n <= |births|
  {
    if n == 0 then 0 else LifeIn(births, n - 1, box) + if births[n - 1] == box then 1 else 0
  }

  lemma {:induction false} SameLifeIffNoneBorn(births: seq<nat>, m: nat, n: nat, box: nat)
    requires m <= n <= |births|
    ensures LifeIn(births, m, box) <= LifeIn(births, n, box)
    ensures LifeIn(births, m, box) == LifeIn(births, n, box) <==> forall i: nat :: m <= i < n ==> births[i] != box
  {
    if m < n { SameLifeIffNoneBorn(births, m, n - 1, box); }
  }

  function SiteOf(phase: Phase): Site
    requires OfDeposit(phase) || phase.Retired?
  {
    if phase.Retired? then phase.site else phase.deposit.site
  }

  lemma SiteIsSound(max: int, j: Joint, c: nat)
    requires JointInv(max, j) && c in j.calls && (OfDeposit(j.calls[c]) || j.calls[c].Retired?)
    ensures SiteSound(j.b, j.births, SiteOf(j.calls[c]))
  {
    hide L.BoxesInv, LL.BooksBalance, R.SystemInv, StoredListed, CollectsMatch, SubsSound, SiteSound;
    assert PhaseSound(j.b, j.ledger, j.births, j.calls[c]);
  }

  /**
   A deposit or a retire that was written and is told now is of the life standing at its id if and only
   if no box has been registered there since its write; and then the row there is the very box, its
   keys, card and times unchanged.
   */
  lemma TellingIsOfTheStandingBox(max: int, j: Joint, c: nat)
    requires JointInv(max, j) && c in j.calls && (OfDeposit(j.calls[c]) || j.calls[c].Retired?)
    ensures var site := SiteOf(j.calls[c]);
            && site.born <= |j.births|
            && (LifeIn(j.births, site.born, site.box) == LifeIn(j.births, |j.births|, site.box) <==> NoneBorn(j.births, site.born, site.box))
            && (NoneBorn(j.births, site.born, site.box) && site.box in j.b.rows ==> LL.SameLife(site.row, j.b.rows[site.box]))
  {
    hide JointInv, LL.SameLife;
    SiteIsSound(max, j, c);
    var site := SiteOf(j.calls[c]);
    SameLifeIffNoneBorn(j.births, site.born, |j.births|, site.box);
  }

  /** No box was registered at this id between the two. */
  ghost predicate NoneBetween(births: seq<nat>, m: nat, n: nat, box: nat) {
    forall i: nat :: Min(m, n) <= i < Max(m, n) && i < |births| ==> births[i] != box
  }

  /**
   The telling of a retire ends every subscription standing at its id. It is the retire of the
   subscription's own box, the life its Collect had read, if and only if no box was registered at the
   id between that read and the retire's write.
   */
  lemma RetireEndsItsOwnExactly(max: int, j: Joint, c: nat, key: P.Key)
    requires JointInv(max, j) && Enabled(j, TellRetire(c)) && P.Standing(j.push.r.boxes, key) && key.box == j.calls[c].site.box
    ensures var t := P.TokenAt(j.push.r.boxes, key);
            && !P.StandsAs(Step(max, j, TellRetire(c)).push.r.boxes, key, t)
            && t in j.subs && j.subs[t].born <= |j.births| && j.calls[c].site.born <= |j.births|
            && (LifeIn(j.births, j.calls[c].site.born, key.box) == LifeIn(j.births, j.subs[t].born, key.box) <==>
                  NoneBetween(j.births, j.calls[c].site.born, j.subs[t].born, key.box))
  {
    hide JointInv, R.SystemInv, R.Step;
    var t := P.TokenAt(j.push.r.boxes, key);
    StandingParts(max, j, key);
    BornBefore(max, j, t);
    SiteIsSound(max, j, c);
    PushOf(max, j);
    RT.OnlyTheseEndIt(max, j.push, R.TellRetire(key.box), key, t);
    LivesBetween(j.births, j.calls[c].site.born, j.subs[t].born, key.box);
  }

  /** And so a deposit it has been told of was stored in its own box under the same condition. */
  lemma ToldOfItsOwnExactly(max: int, j: Joint, key: P.Key, n: nat)
    requires JointInv(max, j) && P.Standing(j.push.r.boxes, key)
    ensures var t := P.TokenAt(j.push.r.boxes, key);
            && t in j.subs && j.subs[t].born <= |j.births|
            && (n < |j.subs[t].told| ==>
                  && j.subs[t].told[n] in j.calls && j.calls[j.subs[t].told[n]].Told?
                  && (var site := j.calls[j.subs[t].told[n]].deposit.site;
                      && site.born <= |j.births|
                      && (LifeIn(j.births, site.born, key.box) == LifeIn(j.births, j.subs[t].born, key.box) <==>
                            NoneBetween(j.births, site.born, j.subs[t].born, key.box))))
  {
    hide JointInv, Complete, MarkSound;
    var t := P.TokenAt(j.push.r.boxes, key);
    StandingParts(max, j, key);
    BornBefore(max, j, t);
    if n < |j.subs[t].told| {
      SiteIsSound(max, j, j.subs[t].told[n]);
      LivesBetween(j.births, j.calls[j.subs[t].told[n]].deposit.site.born, j.subs[t].born, key.box);
    }
  }

  lemma LivesBetween(births: seq<nat>, m: nat, n: nat, box: nat)
    requires m <= |births| && n <= |births|
    ensures LifeIn(births, m, box) == LifeIn(births, n, box) <==> NoneBetween(births, m, n, box)
  {
    hide LifeIn;
    if m <= n { SameLifeIffNoneBorn(births, m, n, box); } else { SameLifeIffNoneBorn(births, n, m, box); }
  }

  lemma BornBefore(max: int, j: Joint, t: nat)
    requires JointInv(max, j) && t in j.subs
    ensures j.subs[t].born <= |j.births|
  {
    hide L.BoxesInv, LL.BooksBalance, R.SystemInv, StoredListed, CollectsMatch, CallsSound;
    assert SubSound(j.push, j.calls, j.stored, |j.births|, t, j.subs[t]);
  }

  lemma PushOf(max: int, j: Joint)
    requires JointInv(max, j)
    ensures R.SystemInv(max, j.push)
  {
  }
}
