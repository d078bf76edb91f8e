/**
 What a subscriber is pushed against what its fetch would answer, in every run of the store beside the
 registry: which rows it is not told of, exactly, and when its high water is nonetheless the right one.
 */
module PushAndFetch {
  import opened Common
  import opened Records
  import opened GroupTransaction
  import opened GroupLog
  import opened GroupBatch
  import opened GroupFetch
  import opened GroupTheorems
  import opened Subscriptions
  import opened Announcements
  import opened StoreAndPush
  import Store = GroupRuns
  import Push = SubscriptionRuns

  /** A subscription of the group, standing or not. */
  predicate OfGroup(j: Joint, t: nat) {
    t in j.push.origins && t in j.push.r.objects && t in j.sources && j.push.origins[t].group == GROUP
  }

  /** A row the subscription may read. */
  predicate Readable(j: Joint, t: nat, k: nat)
    requires OfGroup(j, t)
  {
    k < |j.store.group.records| && At(j.store.group, k).epoch <= j.push.r.objects[t].readEpoch
  }

  ghost predicate Heard(j: Joint, t: nat, k: nat)
    requires OfGroup(j, t)
  {
    exists i :: Push.Concerns(j.push.log, i, j.push.origins[t], j.push.r.objects[t].readEpoch) && j.push.log[i].record.recordId == k + 1
  }

  /** A row it may read, past its snapshot, that nothing published since it was made has told it of. */
  ghost predicate Unheard(j: Joint, t: nat, k: nat)
    requires OfGroup(j, t)
  {
    Readable(j, t, k) && j.push.origins[t].snapshot < k + 1 && !Heard(j, t, k)
  }

  /** Call `c` has been answered, and its answer tells of row `k` at an epoch within the ceiling. */
  ghost predicate TellsOf(j: Joint, c: nat, k: nat, ceiling: nat) {
    && c in j.store.calls && j.store.calls[c].phase.Answered?
    && exists i: nat :: Announces(j.store.calls[c].request.records, j.store.calls[c].phase.results, i)
                        && j.store.calls[c].phase.results[i].recordId == k + 1 && j.store.calls[c].request.records[i].epoch <= ceiling
  }

  /** Call `c` is answered and not yet published, or was published between the snapshot's read and the registration. */
  predicate MissedBy(j: Joint, c: nat, t: nat)
    requires OfGroup(j, t)
  {
    c !in j.published || j.sources[t].log <= j.published[c] < j.push.origins[t].from
  }

  lemma PartsOf(max: int, j: Joint, t: nat)
    requires JointInv(max, j) && t in j.push.origins && t in j.push.r.objects && j.push.origins[t].group == GROUP
    ensures OfGroup(j, t) && MadeFrom(j, t) && SnapshotSound(j.store, |j.push.log|, j.published, j.sources[t])
    ensures GroupInv(j.store.group) && LogMatches(j.store, j.push.log, j.published) && Written(j.store)
  {
    hide Store.LockSound, Store.CallSound, Store.ReaderSound, Push.SystemInv, LogMatches, Written, SnapshotSound, GroupInv, AnnouncedBy;
  }

  /** Its snapshot covers exactly the readable rows there were when it was read. */
  lemma SnapshotCut(j: Joint, t: nat, k: nat)
    requires OfGroup(j, t) && MadeFrom(j, t) && SnapshotSound(j.store, |j.push.log|, j.published, j.sources[t])
    requires GroupInv(j.store.group) && Readable(j, t, k)
    ensures k + 1 <= j.push.origins[t].snapshot <==> k < j.sources[t].rows
  {
    hide GroupInv, HighWater, AnnouncedBy;
    var rows := j.store.group.records;
    GroupIsOrdered(j.store.group);
    CeilingCutsAPrefix(rows[..j.sources[t].rows], j.sources[t].readEpoch);
    assert At(j.store.group, k) == rows[k].record;
    if k < j.sources[t].rows { assert rows[..j.sources[t].rows][k] == rows[k]; }
  }

  /** Whatever it has heard since came from a call published since. */
  lemma HeardFromACall(j: Joint, t: nat, i: int) returns (c: nat, n: nat)
    requires OfGroup(j, t) && MadeFrom(j, t) && LogMatches(j.store, j.push.log, j.published)
    requires Push.Concerns(j.push.log, i, j.push.origins[t], j.push.r.objects[t].readEpoch)
    ensures c in j.published && j.push.origins[t].from <= j.published[c]
    ensures c in j.store.calls && j.store.calls[c].phase.Answered?
    ensures Announces(j.store.calls[c].request.records, j.store.calls[c].phase.results, n)
    ensures j.push.log[i].record == Announcement(j.store.calls[c].request.records, j.store.calls[c].phase.results, n)
  {
    hide Announced;
    c :| Covers(j.store, j.published, c, i);
    assert Published(j.store, j.push.log, j.published, c);
    var call := j.store.calls[c];
    var at: nat := i - j.published[c];
    assert j.push.log[j.published[c] + at] == Push.Stored(GROUP, AnnouncedBy(call)[at]);
    n := AnnouncedComesFrom(call.request.records, call.phase.results, at);
  }

  /** A call published since tells it of every row the call's answer names within its ceiling. */
  lemma PublishedSinceIsHeard(j: Joint, t: nat, c: nat, k: nat)
    requires OfGroup(j, t) && MadeFrom(j, t) && LogMatches(j.store, j.push.log, j.published)
    requires c in j.published && j.push.origins[t].from <= j.published[c] && TellsOf(j, c, k, j.push.r.objects[t].readEpoch)
    ensures Heard(j, t, k)
  {
    hide Announced;
    assert Published(j.store, j.push.log, j.published, c);
    var call := j.store.calls[c];
    var i: nat :| Announces(call.request.records, call.phase.results, i)
               && call.phase.results[i].recordId == k + 1 && call.request.records[i].epoch <= j.push.r.objects[t].readEpoch;
    var n := AnnouncesAppears(call.request.records, call.phase.results, i);
    assert j.push.log[j.published[c] + n] == Push.Stored(GROUP, AnnouncedBy(call)[n]);
    assert Push.Concerns(j.push.log, j.published[c] + n, j.push.origins[t], j.push.r.objects[t].readEpoch);
  }

  /** What was published before the snapshot's read told of rows the snapshot counted. */
  lemma PublishedBeforeIsOld(j: Joint, t: nat, c: nat, k: nat, ceiling: nat)
    requires OfGroup(j, t) && SnapshotSound(j.store, |j.push.log|, j.published, j.sources[t])
    requires c in j.published && j.published[c] < j.sources[t].log && TellsOf(j, c, k, ceiling)
    ensures k < j.sources[t].rows
  {
    hide Announced, HighWater;
    var call := j.store.calls[c];
    var i: nat :| Announces(call.request.records, call.phase.results, i)
               && call.phase.results[i].recordId == k + 1 && call.request.records[i].epoch <= ceiling;
    var n := AnnouncesAppears(call.request.records, call.phase.results, i);
    assert IdsWithin(AnnouncedBy(call), j.sources[t].rows);
    assert AnnouncedBy(call)[n].recordId == k + 1;
  }

  lemma WriterTells(j: Joint, k: nat, ceiling: nat) returns (c: nat)
    requires Written(j.store) && 1 <= k < |j.store.group.records| && At(j.store.group, k).epoch <= ceiling
    ensures TellsOf(j, c, k, ceiling)
  {
    assert HasWriter(j.store, k);
    var t: nat, i: nat :| Wrote(j.store, k, t, i);
    c := t;
  }

  lemma HeardByACall(j: Joint, t: nat, k: nat)
    requires OfGroup(j, t) && MadeFrom(j, t) && LogMatches(j.store, j.push.log, j.published) && Heard(j, t, k)
    ensures exists c :: TellsOf(j, c, k, j.push.r.objects[t].readEpoch) && c in j.published && j.push.origins[t].from <= j.published[c]
  {
    hide MadeFrom, LogMatches, Announced;
    var ceiling := j.push.r.objects[t].readEpoch;
    var i :| Push.Concerns(j.push.log, i, j.push.origins[t], ceiling) && j.push.log[i].record.recordId == k + 1;
    var c, n := HeardFromACall(j, t, i);
    assert TellsOf(j, c, k, ceiling);
  }

  /**
   The rows a subscription may read and has not been told of are exactly those stored after its
   snapshot was read every call telling of which is still to be published, or was published before it
   was registered. And every such row has a call that tells of it.
   */
  lemma UnheardExactly(max: int, j: Joint, t: nat, k: nat)
    requires JointInv(max, j) && t in j.push.origins && t in j.push.r.objects && j.push.origins[t].group == GROUP
    ensures OfGroup(j, t)
    ensures Readable(j, t, k) ==>
              (Unheard(j, t, k) <==>
                 j.sources[t].rows <= k && forall c :: TellsOf(j, c, k, j.push.r.objects[t].readEpoch) ==> MissedBy(j, c, t))
    ensures Readable(j, t, k) && j.sources[t].rows <= k ==> exists c :: TellsOf(j, c, k, j.push.r.objects[t].readEpoch)
  {
    hide JointInv, GroupInv, LogMatches, Written, SnapshotSound, MadeFrom, Heard, TellsOf, At;
    PartsOf(max, j, t);
    if Readable(j, t, k) {
      var ceiling := j.push.r.objects[t].readEpoch;
      SnapshotCut(j, t, k);
      if j.sources[t].rows <= k {
        RowsPastAreLater(j, t, k);
        var w := WriterTells(j, k, ceiling);
        if Heard(j, t, k) { HeardByACall(j, t, k); }
        forall c | TellsOf(j, c, k, ceiling) && !MissedBy(j, c, t) ensures Heard(j, t, k) {
          if j.published[c] < j.sources[t].log {
            PublishedBeforeIsOld(j, t, c, k, ceiling);
          } else {
            PublishedSinceIsHeard(j, t, c, k);
          }
        }
      }
    }
  }

  lemma RowsPastAreLater(j: Joint, t: nat, k: nat)
    requires OfGroup(j, t) && SnapshotSound(j.store, |j.push.log|, j.published, j.sources[t]) && j.sources[t].rows <= k
    ensures 1 <= k
  {
  }

  // ---- the high water ----

  /** Nothing published since it was made has told it of a row above its ceiling. */
  ghost predicate NothingAbove(j: Joint, t: nat, top: nat)
    requires OfGroup(j, t)
  {
    forall i :: Push.Concerns(j.push.log, i, j.push.origins[t], j.push.r.objects[t].readEpoch) ==> j.push.log[i].record.recordId <= top
  }

  /** The last row it may read is there, and its snapshot is no later. */
  lemma TopIsReadable(j: Joint, t: nat)
    requires OfGroup(j, t) && MadeFrom(j, t) && SnapshotSound(j.store, |j.push.log|, j.published, j.sources[t])
    requires GroupInv(j.store.group)
    ensures var top := HighWater(j.store.group.records, j.push.r.objects[t].readEpoch);
            1 <= top <= |j.store.group.records| && Readable(j, t, top - 1) && j.push.origins[t].snapshot <= top
  {
    hide GroupInv, HighWater, AnnouncedBy;
    var rows, ceiling := j.store.group.records, j.push.r.objects[t].readEpoch;
    var top := HighWater(rows, ceiling);
    GroupIsOrdered(j.store.group);
    CeilingCutsAPrefix(rows, ceiling);
    HighWaterGrows(rows[..j.sources[t].rows], rows, ceiling);
    FoundingIsReadable(j.store.group);
    assert At(j.store.group, top - 1) == rows[top - 1].record;
  }

  lemma FoundingIsReadable(g: Group)
    requires GroupInv(g) && 1 <= |g.records|
    ensures g.records[0].record.epoch == 0
  {
    hide KeysMatch, MarkersMatch, PinsMatch, AccountsMatch, SendersMatch, ClaimsMatch;
    assert g.records[0].record == At(g, 0);
    FirstEpoch(g);
  }

  /**
   In every reachable pair, a standing subscription is owed exactly the high water a fetch at its
   ceiling answers if and only if it has been told of the last row it may read, or its snapshot covers
   it, and of none above its ceiling.
   */
  lemma OwedIsTheFetchHighWater(max: int, j: Joint, key: SubKey)
    requires JointInv(max, j) && key in j.push.r.byKey && key.group == GROUP
    ensures var t := j.push.r.byKey[key];
            && OfGroup(j, t)
            && (var top := HighWater(j.store.group.records, j.push.r.objects[t].readEpoch);
                && 1 <= top <= |j.store.group.records|
                && (j.push.r.objects[t].owed == top <==> !Unheard(j, t, top - 1) && NothingAbove(j, t, top)))
  {
    hide JointInv, GroupInv, LogMatches, Written, SnapshotSound, MadeFrom, HighWater;
    var t := j.push.r.byKey[key];
    StandingParts(max, j, key);
    PartsOf(max, j, t);
    TopIsReadable(j, t);
    var top := HighWater(j.store.group.records, j.push.r.objects[t].readEpoch);
    OwedAgainst(j, t, top);
  }

  lemma StandingParts(max: int, j: Joint, key: SubKey)
    requires JointInv(max, j) && key in j.push.r.byKey && key.group == GROUP
    ensures var t := j.push.r.byKey[key];
            && t in j.push.r.objects && t in j.push.origins && t in j.push.pushes && j.push.origins[t].group == GROUP
            && Push.ToldSound(j.push.log, j.push.origins[t], j.push.r.objects[t], j.push.pushes[t])
            && Push.Covers(j.push.log, j.push.origins[t], j.push.r.objects[t])
  {
    hide Store.SystemInv, LogMatches, Written, SnapshotsSound, AllMadeFrom, IndexesAgree, Push.ToldSound, Push.Covers;
  }

  /** Owed is the highest of the snapshot and what was told, so it meets `top` exactly when one of them does and none passes it. */
  lemma OwedAgainst(j: Joint, t: nat, top: nat)
    requires OfGroup(j, t) && 1 <= top && Readable(j, t, top - 1) && j.push.origins[t].snapshot <= top
    requires Push.MayTell(j.push.log, j.push.origins[t], j.push.r.objects[t].readEpoch, j.push.r.objects[t].owed)
    requires Push.Covers(j.push.log, j.push.origins[t], j.push.r.objects[t])
    ensures j.push.r.objects[t].owed == top <==> !Unheard(j, t, top - 1) && NothingAbove(j, t, top)
  {
    hide At;
    if j.push.r.objects[t].owed == top {
      if j.push.origins[t].snapshot < top { assert Heard(j, t, top - 1); }
    }
  }

  /** Only a retry that names an epoch not its row's can tell a subscriber of a row above its ceiling. */
  lemma OnlyRetriesPassTheCeiling(max: int, j: Joint, t: nat, i: int) returns (c: nat, n: nat)
    requires JointInv(max, j) && t in j.push.origins && t in j.push.r.objects && j.push.origins[t].group == GROUP
    requires Push.Concerns(j.push.log, i, j.push.origins[t], j.push.r.objects[t].readEpoch)
    requires HighWater(j.store.group.records, j.push.r.objects[t].readEpoch) < j.push.log[i].record.recordId
    ensures c in j.published && c in j.store.calls && j.store.calls[c].phase.Answered?
    ensures Announces(j.store.calls[c].request.records, j.store.calls[c].phase.results, n)
    ensures var named, id := j.store.calls[c].request.records[n].epoch, j.store.calls[c].phase.results[n].recordId;
            && 1 <= id <= |j.store.group.records| && id == j.push.log[i].record.recordId
            && named <= j.push.r.objects[t].readEpoch < At(j.store.group, id - 1).epoch
            && j.push.origins[t].from <= j.published[c] && !Wrote(j.store, id - 1, c, n)
  {
    hide GroupInv, LogMatches, Written, SnapshotSound, MadeFrom, HighWater, Push.SystemInv, Store.SystemInv, Announced;
    PartsOf(max, j, t);
    c, n := HeardFromACall(j, t, i);
    AnnouncedRowsExist(j.store, c);
    var call := j.store.calls[c];
    var m := AnnouncesAppears(call.request.records, call.phase.results, n);
    assert AnnouncedBy(call)[m].recordId == call.phase.results[n].recordId;
    GroupIsOrdered(j.store.group);
    CeilingCutsAPrefix(j.store.group.records, j.push.r.objects[t].readEpoch);
    var id := call.phase.results[n].recordId;
    assert At(j.store.group, id - 1) == j.store.group.records[id - 1].record;
  }

  /** It is told of a row above its ceiling exactly when some call published since names such a row within it. */
  lemma AboveExactly(max: int, j: Joint, t: nat, top: nat)
    requires JointInv(max, j) && t in j.push.origins && t in j.push.r.objects && j.push.origins[t].group == GROUP
    ensures OfGroup(j, t)
    ensures !NothingAbove(j, t, top) <==>
              exists c, k: nat :: TellsOf(j, c, k, j.push.r.objects[t].readEpoch) && top <= k
                                  && c in j.published && j.push.origins[t].from <= j.published[c]
  {
    hide JointInv, GroupInv, LogMatches, Written, SnapshotSound, MadeFrom, Announced;
    PartsOf(max, j, t);
    var ceiling := j.push.r.objects[t].readEpoch;
    if !NothingAbove(j, t, top) {
      var i :| Push.Concerns(j.push.log, i, j.push.origins[t], ceiling) && top < j.push.log[i].record.recordId;
      var c, n := HeardFromACall(j, t, i);
      assert TellsOf(j, c, j.push.log[i].record.recordId - 1, ceiling);
    }
    if c, k: nat :| TellsOf(j, c, k, ceiling) && top <= k && c in j.published && j.push.origins[t].from <= j.published[c] {
      PublishedSinceIsHeard(j, t, c, k);
    }
  }

  // ---- every run ----

  function Start(limits: Limits, request: CreateRequest, now: Time): Joint
    requires FoundingCommit(request)
  {
    Joint(Store.System(Founded(limits, request, now), None, map[], map[]), Push.EMPTY, map[], map[], map[])
  }

  lemma StartKeepsInv(limits: Limits, max: int, request: CreateRequest, now: Time)
    requires FoundingCommit(request)
    ensures JointInv(max, Start(limits, request, now))
  {
    hide GroupInv, Push.SystemInv, FoundingCommit;
    EveryRunKeepsTheLog(limits, request, now, [], Start(limits, request, now).store);
    EmptyPush(max);
  }

  lemma EmptyPush(max: int)
    ensures Push.SystemInv(max, Push.EMPTY)
  {
    Push.EveryRunKeepsInv(max, []);
  }

  /** What a subscriber last learned: its last push, or the snapshot it was acknowledged with. */
  function LastTold(s: Push.System, t: nat): nat
    requires t in s.pushes && t in s.origins
  {
    if s.pushes[t] == [] then s.origins[t].snapshot else s.pushes[t][|s.pushes[t]| - 1]
  }

  /**
   In every run from a founding commit, once the delivery loop sleeps with no wake-up on its way, what
   a standing subscriber last learned is the high water its own fetch would answer if and only if the
   last row it may read is not one it missed and no retry told it of a row above its ceiling.
   */
  lemma PushedIsFetchedExactly(limits: Limits, max: int, request: CreateRequest, now: Time, events: seq<Event>, key: SubKey)
    requires FoundingCommit(request) && Exec(limits, max, Start(limits, request, now), events).Some?
    requires var j := Exec(limits, max, Start(limits, request, now), events).value; key in j.push.r.byKey && key.group == GROUP
    ensures var j := Exec(limits, max, Start(limits, request, now), events).value;
            var t := j.push.r.byKey[key];
            && JointInv(max, j) && OfGroup(j, t) && t in j.push.pushes
            && (var top := HighWater(j.store.group.records, j.push.r.objects[t].readEpoch);
                && 1 <= top
                && (j.push.loop.Waiting? && !j.push.signal && j.push.waking == 0 ==>
                      (LastTold(j.push, t) == top <==> !Unheard(j, t, top - 1) && NothingAbove(j, t, top))))
  {
    hide JointInv, Exec, HighWater, Unheard, NothingAbove, FoundingCommit;
    StartKeepsInv(limits, max, request, now);
    RunKeepsInv(limits, max, Start(limits, request, now), events);
    var j := Exec(limits, max, Start(limits, request, now), events).value;
    OwedIsTheFetchHighWater(max, j, key);
    StandingParts(max, j, key);
    if j.push.loop.Waiting? && !j.push.signal && j.push.waking == 0 {
      QuietIsTold(max, j, key);
    }
  }

  lemma QuietIsTold(max: int, j: Joint, key: SubKey)
    requires JointInv(max, j) && key in j.push.r.byKey && j.push.loop.Waiting? && !j.push.signal && j.push.waking == 0
    ensures var t := j.push.r.byKey[key];
            t in j.push.r.objects && t in j.push.pushes && t in j.push.origins && LastTold(j.push, t) == j.push.r.objects[t].owed
  {
    hide Store.SystemInv, LogMatches, Written, SnapshotsSound, AllMadeFrom, IndexesAgree, Push.MayTell, Push.Covers;
    var t := j.push.r.byKey[key];
    assert Push.ToldSound(j.push.log, j.push.origins[t], j.push.r.objects[t], j.push.pushes[t]);
    assert !Due(j.push.r.objects, t);
  }

  lemma FirstEpoch(g: Group)
    requires GroupInv(g) && 1 <= |g.records|
    ensures At(g, 0).epoch == 0
  {
    if 0 < g.currentEpoch { EpochHasItsCommit(g, 0); }
  }

  // ---- and what a run adds ----

  /** What no run undoes: answers, rows, announcements and where they stand, and whom a subscription is. */
  ghost predicate Later(j: Joint, j': Joint) {
    && StoreAndPush.StoreExtends(j.store, j'.store) && j.push.log <= j'.push.log
    && (forall t :: t in j.push.origins && t in j.push.r.objects ==>
          && t in j'.push.origins && j'.push.origins[t] == j.push.origins[t]
          && t in j'.push.r.objects && j'.push.r.objects[t].readEpoch == j.push.r.objects[t].readEpoch)
    && (forall c :: c in j.published ==> c in j'.published && j'.published[c] == j.published[c])
    && (forall c :: c in j'.published && c !in j.published ==> |j.push.log| <= j'.published[c])
  }

  lemma StepIsLater(limits: Limits, max: int, j: Joint, e: Event)
    requires JointInv(max, j) && Enabled(j, e)
    ensures Later(j, Step(limits, max, j, e))
  {
    hide Store.SystemInv, Push.SystemInv, Store.Step, Push.Step, Store.Enabled, Push.Enabled, Written, LogMatches, SnapshotsSound, AllMadeFrom,
         AnnouncedBy, HighWater;
    match e
    case StoreStep(s) => StepExtendsStore(limits, j.store, s);
    case PushStep(p) => StepExtendsPush(max, j.push, p);
    case PublishCall(t) => PublishExtends(max, j.push, Push.DoPublish(GROUP, AnnouncedBy(j.store.calls[t])));
    case ReadSnapshot(_, _, _, _) =>
    case Register(h) => SubscribeExtends(max, j.push, Registration(j.reading[h]));
  }

  lemma LaterStill(a: Joint, b: Joint, c: Joint)
    requires Later(a, b) && Later(b, c)
    ensures Later(a, c)
  {
  }

  lemma {:induction false} RunIsLater(limits: Limits, max: int, j: Joint, events: seq<Event>)
    requires JointInv(max, j) && Exec(limits, max, j, events).Some?
    ensures Later(j, Exec(limits, max, j, events).value)
    decreases |events|
  {
    hide JointInv, Step, Enabled;
    if |events| != 0 {
      var j' := Step(limits, max, j, events[0]);
      StepKeepsInv(limits, max, j, events[0]);
      StepIsLater(limits, max, j, events[0]);
      RunIsLater(limits, max, j', events[1..]);
      hide Later;
      LaterStill(j, j', Exec(limits, max, j, events).value);
    }
  }

  /**
   A row a subscription has not been told of stays so, in every run from there, exactly until a call
   that tells of it is published.
   */
  lemma UnheardUntilPublished(limits: Limits, max: int, j: Joint, events: seq<Event>, t: nat, k: nat)
    requires JointInv(max, j) && Exec(limits, max, j, events).Some? && OfGroup(j, t) && Unheard(j, t, k)
    ensures var j', ceiling := Exec(limits, max, j, events).value, j.push.r.objects[t].readEpoch;
            && OfGroup(j', t) && j'.push.r.objects[t].readEpoch == ceiling
            && (Unheard(j', t, k) <==> forall c :: TellsOf(j', c, k, ceiling) && c in j'.published ==> c in j.published)
  {
    hide JointInv, Exec, GroupInv, LogMatches, Written, SnapshotSound, Heard, TellsOf;
    var j', ceiling := Exec(limits, max, j, events).value, j.push.r.objects[t].readEpoch;
    RunKeepsInv(limits, max, j, events);
    RunIsLater(limits, max, j, events);
    PartsOf(max, j, t);
    PartsOf(max, j', t);
    assert At(j'.store.group, k) == At(j.store.group, k);
    if Heard(j', t, k) {
      HeardByACall(j', t, k);
      var c :| TellsOf(j', c, k, ceiling) && c in j'.published && j'.push.origins[t].from <= j'.published[c];
      if c in j.published { ToldThen(j, j', c, k, ceiling); PublishedSinceIsHeard(j, t, c, k); }
    }
    forall c | TellsOf(j', c, k, ceiling) && c in j'.published && c !in j.published ensures Heard(j', t, k) {
      PublishedSinceIsHeard(j', t, c, k);
    }
  }

  lemma ToldThen(j: Joint, j': Joint, c: nat, k: nat, ceiling: nat)
    requires Later(j, j') && LogMatches(j.store, j.push.log, j.published) && c in j.published && TellsOf(j', c, k, ceiling)
    ensures TellsOf(j, c, k, ceiling)
  {
    hide Announced;
    assert Published(j.store, j.push.log, j.published, c);
  }
}
