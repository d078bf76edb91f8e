/** Two runs, step by step, in which the delivery loop pushes what its subscriber has already been told. */
module StalePushes {
  import opened Common
  import opened Subscriptions
  import opened SubscriptionRuns
  import opened SubscriptionMarks

  ghost predicate Leads(s: System, e: Event, s': System) {
    Enabled(s, e) && Step(32, s, e) == s'
  }

  lemma {:induction false} PathRuns(path: seq<System>, events: seq<Event>)
    requires |path| == |events| + 1 && forall i :: 0 <= i < |events| ==> Leads(path[i], events[i], path[i + 1])
    ensures Exec(32, path[0], events) == Some(path[|events|])
    decreases |events|
  {
    if |events| != 0 {
      assert Leads(path[0], events[0], path[1]);
      forall i | 0 <= i < |events[1..]| ensures Leads(path[1..][i], events[1..][i], path[1..][i + 1]) {
        assert Leads(path[i + 1], events[i + 1], path[i + 2]);
      }
      PathRuns(path[1..], events[1..]);
    }
  }

  // ---- overtaken on the wire ----

  const KEY := SubKey(0, 0)
  const FIRST := PublishedRecord(1, 1)
  const ABOVE := PublishedRecord(2, 9)

  /** A registry of at most one standing subscription, at ceiling 5. */
  function One(byKey: map<SubKey, nat>, ready: set<SubKey>, objects: map<nat, Sub>): Registry {
    Registry(byKey, if byKey == map[] then map[] else map[0 := {0}], ready, objects, |objects|)
  }

  function Beside(r: Registry, loop: Loop, signal: bool, waking: nat, log: seq<Stored>, told: seq<nat>): System {
    System(r, loop, signal, waking, map[0 := Origin(0, 0, 0)], log, map[0 := told])
  }

  const MADE := Beside(One(map[KEY := 0], {}, map[0 := Sub(5, 0, 0)]), Waiting, false, 0, [], [])
  const OWED := One(map[KEY := 0], {KEY}, map[0 := Sub(5, 1, 0)])
  const MARKED := Beside(OWED, Waiting, false, 1, [Stored(0, FIRST)], [])
  const WOKEN := Beside(OWED, Waiting, true, 0, [Stored(0, FIRST)], [])
  const DRAINING := Beside(OWED, Draining, false, 0, [Stored(0, FIRST)], [])
  const SENDING := Beside(OWED.(ready := {}), Sending(KEY, 0, 1), false, 0, [Stored(0, FIRST)], [1])
  const OVERTAKEN := Beside(OWED, Sending(KEY, 0, 1), false, 1, [Stored(0, FIRST), Stored(0, ABOVE)], [1])
  const LANDED := Beside(One(map[KEY := 0], {KEY}, map[0 := Sub(5, 1, 1)]), Draining, false, 1, [Stored(0, FIRST), Stored(0, ABOVE)], [1])

  lemma LeadsToMade()
    ensures Leads(EMPTY, DoSubscribe(0, 0, 5, 0, false), MADE)
  {
  }

  lemma LeadsToMarked()
    ensures Leads(MADE, DoPublish(0, [FIRST]), MARKED)
  {
    assert Raised(Sub(5, 0, 0), [FIRST]) == Sub(5, 1, 0);
  }

  lemma LeadsToDraining()
    ensures Leads(MARKED, WakeUp, WOKEN) && Leads(WOKEN, LoopWakes, DRAINING)
  {
  }

  lemma LeadsToSending()
    ensures Leads(DRAINING, LoopTakes(KEY, {}), SENDING)
  {
    assert OWED.ready - {KEY} - {} == {};
    assert DRAINING.pushes[0] + [1] == [1];
    assert map[0 := []][0 := [1]] == map[0 := [1]];
  }

  lemma LeadsToOvertaken()
    ensures Leads(SENDING, DoPublish(0, [ABOVE]), OVERTAKEN)
  {
    assert Raised(Sub(5, 1, 0), [ABOVE]) == Sub(5, 1, 0);
  }

  lemma LeadsToLanded()
    ensures Leads(OVERTAKEN, LoopSent(true), LANDED)
  {
  }

  lemma LandedIsTakenAgain()
    ensures Enabled(LANDED, LoopTakes(KEY, {})) && Step(32, LANDED, LoopTakes(KEY, {})).pushes == map[0 := [1, 1]]
  {
    assert LANDED.pushes[0] + [1] == [1, 1];
    assert map[0 := [1]][0 := [1, 1]] == map[0 := [1, 1]];
  }

  const OVERTAKEN_RUN := [DoSubscribe(0, 0, 5, 0, false), DoPublish(0, [FIRST]), WakeUp, LoopWakes, LoopTakes(KEY, {}),
                          DoPublish(0, [ABOVE]), LoopSent(true)]

  /** A record above the ceiling, published while the only push owed is on the wire, has that push sent again. */
  lemma PushedTwiceWhenOvertaken()
    ensures Exec(32, EMPTY, OVERTAKEN_RUN) == Some(LANDED)
    ensures Enabled(LANDED, LoopTakes(KEY, {})) && Step(32, LANDED, LoopTakes(KEY, {})).pushes == map[0 := [1, 1]]
  {
    hide Leads, Exec, Enabled, Step, One, Beside;
    LeadsToMade();
    LeadsToMarked();
    LeadsToDraining();
    LeadsToSending();
    LeadsToOvertaken();
    LeadsToLanded();
    LandedIsTakenAgain();
    PathRuns([EMPTY, MADE, MARKED, WOKEN, DRAINING, SENDING, OVERTAKEN, LANDED], OVERTAKEN_RUN);
  }

  // ---- made again under a mark ----

  const CANCELLED := MARKED.(r := One(map[], {KEY}, map[0 := Sub(5, 1, 0)]))

  function Again(loop: Loop, signal: bool, waking: nat): System {
    System(One(map[KEY := 1], {KEY}, map[0 := Sub(5, 1, 0), 1 := Sub(5, 1, 1)]), loop, signal, waking,
           map[0 := Origin(0, 0, 0), 1 := Origin(0, 1, 1)], [Stored(0, FIRST)], map[0 := [], 1 := []])
  }

  lemma LeadsToCancelled()
    ensures Leads(MARKED, DoUnsubscribe(0, {0}, false), CANCELLED)
  {
    assert KeysFor(0, {0}) == {KEY};
    assert OWED.byKey - {KEY} == map[];
  }

  lemma LeadsToAgain()
    ensures Leads(CANCELLED, DoSubscribe(0, 0, 5, 1, false), Again(Waiting, false, 1))
  {
  }

  lemma LeadsToDrainingAgain()
    ensures Leads(Again(Waiting, false, 1), WakeUp, Again(Waiting, true, 0))
    ensures Leads(Again(Waiting, true, 0), LoopWakes, Again(Draining, false, 0))
  {
  }

  lemma AgainIsTaken()
    ensures var s := Again(Draining, false, 0);
            Enabled(s, LoopTakes(KEY, {})) && Step(32, s, LoopTakes(KEY, {})).pushes == map[0 := [], 1 := [1]]
  {
    var s := Again(Draining, false, 0);
    assert s.pushes[1] + [1] == [1];
    assert s.pushes[1 := [1]] == map[0 := [], 1 := [1]];
  }

  const CANCELLED_RUN := [DoSubscribe(0, 0, 5, 0, false), DoPublish(0, [FIRST]), DoUnsubscribe(0, {0}, false),
                          DoSubscribe(0, 0, 5, 1, false), WakeUp, LoopWakes]

  /** A subscription cancelled under its mark and made again is pushed the very snapshot it was acknowledged with. */
  lemma PushedItsSnapshotWhenMadeAgain()
    ensures Exec(32, EMPTY, CANCELLED_RUN) == Some(Again(Draining, false, 0))
    ensures var s := Again(Draining, false, 0);
            && s.origins[1].snapshot == 1 && Enabled(s, LoopTakes(KEY, {}))
            && Step(32, s, LoopTakes(KEY, {})).pushes == map[0 := [], 1 := [1]]
  {
    AgainIsTaken();
    CancelledRunLeads();
  }

  lemma CancelledRunLeads()
    ensures Exec(32, EMPTY, CANCELLED_RUN) == Some(Again(Draining, false, 0))
  {
    hide Leads, Exec, Enabled, Step, One, Beside, Again;
    LeadsToMade();
    LeadsToMarked();
    LeadsToCancelled();
    LeadsToAgain();
    LeadsToDrainingAgain();
    PathRuns([EMPTY, MADE, MARKED, CANCELLED, Again(Waiting, false, 1), Again(Waiting, true, 0), Again(Draining, false, 0)], CANCELLED_RUN);
  }
}
