/**
 One group's store beside the push registry: submissions answered in the one and announced to the
 other in a later step, and subscribers that read their snapshot in one step and register in another.
 */
module StoreAndPush {
  import opened Common
  import opened Records
  import opened GroupTransaction
  import opened GroupLog
  import opened GroupBatch
  import opened GroupFetch
  import opened Subscriptions
  import opened Announcements
  import Store = GroupRuns
  import Push = SubscriptionRuns

  /** The group whose store this is; the registry serves others too. */
  const GROUP: nat := 0

  /** What a subscriber read, and how many rows and announcements there were just then. */
  datatype Snapshot = Snapshot(connection: nat, readEpoch: nat, replace: bool, highWater: nat, rows: nat, log: nat)

  /**
   `published` says where in the registry's log a call's announcements begin, `reading` holds the
   snapshots not registered yet, and `sources` the one each subscription of the group was made from.
   */
  datatype Joint = Joint(
    store: Store.System, push: Push.System, published: map<nat, nat>, reading: map<nat, Snapshot>, sources: map<nat, Snapshot>)

  datatype Event =
    | StoreStep(s: Store.Event)
    | PushStep(p: Push.Event)
    | PublishCall(t: nat)
    | ReadSnapshot(h: nat, connection: nat, readEpoch: nat, replace: bool)
    | Register(h: nat)

  /** Of this group's subscribes and publishes, only those the store's calls and readers make. */
  predicate Foreign(e: Push.Event) {
    && !(e.DoSubscribe? && e.group == GROUP)
    && !(e.DoPublish? && e.group == GROUP)
  }

  predicate Enabled(j: Joint, e: Event) {
    match e
    case StoreStep(s) => Store.Enabled(j.store, s)
    case PushStep(p) => Foreign(p) && Push.Enabled(j.push, p)
    case PublishCall(t) => t in j.store.calls && j.store.calls[t].phase.Answered? && t !in j.published
    case ReadSnapshot(h, _, _, _) => h !in j.reading && !j.store.group.closed
    case Register(h) => h in j.reading
  }

  function AnnouncedBy(call: Store.Call): seq<PublishedRecord> {
    if call.phase.Answered? then Announced(call.request.records, call.phase.results) else []
  }

  function Registration(snap: Snapshot): Push.Event {
    Push.DoSubscribe(snap.connection, GROUP, snap.readEpoch, snap.highWater, snap.replace)
  }

  function Step(limits: Limits, max: int, j: Joint, e: Event): Joint
    requires Enabled(j, e)
  {
    match e
    case StoreStep(s) => j.(store := Store.Step(limits, j.store, s))
    case PushStep(p) => j.(push := Push.Step(max, j.push, p))
    case PublishCall(t) =>
      j.(push := Push.Step(max, j.push, Push.DoPublish(GROUP, AnnouncedBy(j.store.calls[t]))),
         published := j.published[t := |j.push.log|])
    case ReadSnapshot(h, connection, readEpoch, replace) =>
      var rows := j.store.group.records;
      j.(reading := j.reading[h := Snapshot(connection, readEpoch, replace, HighWater(rows, readEpoch), |rows|, |j.push.log|)])
    case Register(h) =>
      var snap := j.reading[h];
      var push' := Push.Step(max, j.push, Registration(snap));
      j.(push := push', reading := j.reading - {h},
         sources := if j.push.r.allocations < push'.r.allocations then j.sources[j.push.r.allocations := snap] else j.sources)
  }

  // ---- what every reachable pair satisfies ----

  /** Result `i` of call `t` is the acceptance that stored row `k`, at the row's own epoch. */
  ghost predicate Wrote(store: Store.System, k: nat, t: nat, i: nat)
    requires k < |store.group.records|
  {
    && t in store.calls && store.calls[t].phase.Answered?
    && Announces(store.calls[t].request.records, store.calls[t].phase.results, i)
    && Announcement(store.calls[t].request.records, store.calls[t].phase.results, i) == PublishedRecord(k + 1, At(store.group, k).epoch)
  }

  ghost predicate HasWriter(store: Store.System, k: nat)
    requires k < |store.group.records|
  {
    exists t: nat, i: nat :: Wrote(store, k, t, i)
  }

  /** Every row but the founding commit's was written by a call that has been answered. */
  ghost predicate Written(store: Store.System) {
    && 1 <= |store.group.records|
    && forall k: nat :: 1 <= k < |store.group.records| ==> HasWriter(store, k)
  }

  /** A published call's announcements stand in the log, all of them, from where it began. */
  ghost predicate Published(store: Store.System, log: seq<Push.Stored>, published: map<nat, nat>, t: nat)
    requires t in published
  {
    && t in store.calls && store.calls[t].phase.Answered?
    && var stored := AnnouncedBy(store.calls[t]);
       && published[t] + |stored| <= |log|
       && forall i: nat :: i < |stored| ==> log[published[t] + i] == Push.Stored(GROUP, stored[i])
  }

  /** Where in the log a call's announcements are. */
  ghost predicate Covers(store: Store.System, published: map<nat, nat>, t: nat, i: int) {
    t in published && t in store.calls && published[t] <= i < published[t] + |AnnouncedBy(store.calls[t])|
  }

  /** The log's entries of this group are exactly the published calls' announcements. */
  ghost predicate LogMatches(store: Store.System, log: seq<Push.Stored>, published: map<nat, nat>) {
    && (forall t :: t in published ==> Published(store, log, published, t))
    && (forall i :: 0 <= i < |log| && log[i].group == GROUP ==> exists t :: Covers(store, published, t, i))
  }

  ghost predicate IdsWithin(stored: seq<PublishedRecord>, rows: nat) {
    forall i: nat :: i < |stored| ==> stored[i].recordId <= rows
  }

  /** A snapshot was true of the rows there were, and what was published before it named only those. */
  ghost predicate SnapshotSound(store: Store.System, log: nat, published: map<nat, nat>, snap: Snapshot) {
    && 1 <= snap.rows <= |store.group.records| && snap.log <= log
    && snap.highWater == HighWater(store.group.records[..snap.rows], snap.readEpoch)
    && forall t :: t in published && t in store.calls && published[t] < snap.log ==> IdsWithin(AnnouncedBy(store.calls[t]), snap.rows)
  }

  /** A subscription of the group is made from its snapshot, after it, and between whole publishes. */
  ghost predicate MadeFrom(j: Joint, t: nat)
    requires t in j.push.origins && t in j.push.r.objects
  {
    && t in j.sources
    && j.push.origins[t].snapshot == j.sources[t].highWater && j.push.r.objects[t].readEpoch == j.sources[t].readEpoch
    && j.sources[t].log <= j.push.origins[t].from <= |j.push.log|
    && forall c :: c in j.published && c in j.store.calls ==>
         j.push.origins[t].from <= j.published[c] || j.published[c] + |AnnouncedBy(j.store.calls[c])| <= j.push.origins[t].from
  }

  ghost predicate SnapshotsSound(j: Joint) {
    && (forall h :: h in j.reading ==> SnapshotSound(j.store, |j.push.log|, j.published, j.reading[h]))
    && (forall t :: t in j.sources ==> SnapshotSound(j.store, |j.push.log|, j.published, j.sources[t]))
  }

  ghost predicate AllMadeFrom(j: Joint) {
    forall t :: t in j.push.origins && t in j.push.r.objects && j.push.origins[t].group == GROUP ==> MadeFrom(j, t)
  }

  ghost predicate JointInv(max: int, j: Joint) {
    && Store.SystemInv(j.store) && Push.SystemInv(max, j.push)
    && Written(j.store) && LogMatches(j.store, j.push.log, j.published)
    && SnapshotsSound(j) && AllMadeFrom(j)
  }

  // ---- a step of the store ----

  /** An answered call is never touched again. */
  lemma AnsweredStays(limits: Limits, s: Store.System, e: Store.Event, t: nat)
    requires Store.Enabled(s, e) && t in s.calls && s.calls[t].phase.Answered?
    ensures t in Store.Step(limits, s, e).calls && Store.Step(limits, s, e).calls[t] == s.calls[t]
  {
    hide Store.AfterCommit, Store.AfterGate, Store.AfterRead, Store.AfterFetch, Store.EarlyResults, ProbeBatch, RefuseBatch;
  }

  lemma StoreGrows(limits: Limits, s: Store.System, e: Store.Event)
    requires Store.SystemInv(s) && Store.Enabled(s, e)
    ensures Store.SystemInv(Store.Step(limits, s, e)) && s.group.records <= Store.Step(limits, s, e).group.records
  {
    hide Store.SystemInv, Store.Step;
    Store.StepKeepsInv(limits, s, e);
  }

  /** Only a commit adds rows, and each row it adds is one its own answer announces. */
  lemma NewRowsAreWritten(limits: Limits, s: Store.System, e: Store.Event, k: nat) returns (t: nat, i: nat)
    requires Store.SystemInv(s) && Store.Enabled(s, e)
    requires |s.group.records| <= k < |Store.Step(limits, s, e).group.records|
    ensures Wrote(Store.Step(limits, s, e), k, t, i)
  {
    hide GroupInv, CommitBatch, CommittedResults, Store.SystemInv, Store.Step, Store.Enabled;
    t := CommitOnly(limits, s, e);
    CommitWrites(limits, s, t, e.now);
    var call := s.calls[t];
    var g, p := s.group, call.phase;
    ShapeParts(g);
    CommitAppends(limits, g, call.request.keys, call.request.records, p.outcomes, e.now);
    i := AllocatedToSome(p.outcomes, |p.outcomes|, k - |g.records|);
    StoredIsAnnouncedTrue(limits, g, call.request.keys, call.request.records, p.outcomes, e.now, i);
  }

  /** A commit under the lock writes its batch and answers it. */
  lemma CommitWrites(limits: Limits, s: Store.System, t: nat, now: Time)
    requires Store.SystemInv(s) && Store.Enabled(s, Store.CommitCall(t, now))
    ensures GroupInv(s.group) && t in s.calls && s.calls[t].phase.Gating?
    ensures |s.calls[t].phase.outcomes| == |s.calls[t].request.records|
    ensures var s' := Store.Step(limits, s, Store.CommitCall(t, now));
            var request, outcomes := s.calls[t].request, s.calls[t].phase.outcomes;
            && s'.group == CommitBatch(limits, s.group, s.group.currentEpoch, request.keys, request.records, outcomes, now)
            && t in s'.calls && s'.calls[t].request == request
            && s'.calls[t].phase == Store.Answered(CommittedResults(limits, StateOf(s.group), request.keys, request.records, outcomes, s.group.nextRecordId))
  {
    hide GroupInv, CommitBatch, CommittedResults, Store.ReaderSound, Store.LockSound, GateFrom;
    assert Store.CallSound(s.group, s.calls[t]);
    Store.GatedCommitHasNotLost(s.group, s.calls[t].request, s.calls[t].phase);
  }

  lemma CommitOnly(limits: Limits, s: Store.System, e: Store.Event) returns (t: nat)
    requires Store.Enabled(s, e) && |s.group.records| < |Store.Step(limits, s, e).group.records|
    ensures e.CommitCall? && t == e.t
  {
    hide Store.AfterCommit, Store.AfterGate, Store.AfterRead, Store.AfterFetch, Store.EarlyResults, ProbeBatch, RefuseBatch;
    t := e.t;
  }

  lemma {:induction false} CommitAppends(limits: Limits, g: Group, keys: Option<EpochKeyDelivery>, batch: seq<Record>, outcomes: seq<Probe>, now: Time)
    requires |outcomes| == |batch|
    ensures |CommitBatch(limits, g, g.currentEpoch, keys, batch, outcomes, now).records| == |g.records| + CountAbsent(outcomes, |batch|)
  {
    StoreFromAllocates(limits, Allocate(g, CountAbsent(outcomes, |batch|)), g.currentEpoch, keys, batch, outcomes, 0, g.nextRecordId, now);
  }

  lemma StoreKeepsWritten(limits: Limits, s: Store.System, e: Store.Event)
    requires Store.SystemInv(s) && Store.Enabled(s, e) && Written(s)
    ensures Written(Store.Step(limits, s, e))
  {
    hide Store.SystemInv, Store.Step, Announces, GroupInv;
    var s' := Store.Step(limits, s, e);
    StoreGrows(limits, s, e);
    forall k: nat | 1 <= k < |s'.group.records| ensures HasWriter(s', k) {
      if k < |s.group.records| {
        assert HasWriter(s, k);
        var t: nat, i: nat :| Wrote(s, k, t, i);
        AnsweredStays(limits, s, e, t);
        assert Wrote(s', k, t, i);
      } else {
        var t, i := NewRowsAreWritten(limits, s, e, k);
      }
    }
  }

  /** What a step of the store leaves as it was: its rows and every call already answered. */
  ghost predicate StoreExtends(s: Store.System, s': Store.System) {
    && s.group.records <= s'.group.records
    && (forall t :: t in s.calls && s.calls[t].phase.Answered? ==> t in s'.calls && s'.calls[t] == s.calls[t])
  }

  lemma StepExtendsStore(limits: Limits, s: Store.System, e: Store.Event)
    requires Store.SystemInv(s) && Store.Enabled(s, e)
    ensures StoreExtends(s, Store.Step(limits, s, e))
  {
    hide Store.SystemInv, Store.Step, Store.Enabled;
    StoreGrows(limits, s, e);
    forall t | t in s.calls && s.calls[t].phase.Answered?
      ensures t in Store.Step(limits, s, e).calls && Store.Step(limits, s, e).calls[t] == s.calls[t]
    {
      AnsweredStays(limits, s, e, t);
    }
  }

  lemma ExtendedLogMatches(s: Store.System, s': Store.System, log: seq<Push.Stored>, published: map<nat, nat>)
    requires LogMatches(s, log, published) && StoreExtends(s, s')
    ensures LogMatches(s', log, published)
  {
    hide AnnouncedBy;
    forall t | t in published ensures Published(s', log, published, t) { assert Published(s, log, published, t); }
    forall i | 0 <= i < |log| && log[i].group == GROUP ensures exists t :: Covers(s', published, t, i) {
      var t :| Covers(s, published, t, i);
      assert Published(s, log, published, t);
      assert Covers(s', published, t, i);
    }
  }

  lemma ExtendedSnapshot(s: Store.System, s': Store.System, log: seq<Push.Stored>, published: map<nat, nat>, snap: Snapshot)
    requires LogMatches(s, log, published) && StoreExtends(s, s') && SnapshotSound(s, |log|, published, snap)
    ensures SnapshotSound(s', |log|, published, snap)
  {
    hide AnnouncedBy, HighWater;
    assert s'.group.records[..snap.rows] == s.group.records[..snap.rows];
    forall t | t in published && t in s'.calls && published[t] < snap.log ensures IdsWithin(AnnouncedBy(s'.calls[t]), snap.rows) {
      assert Published(s, log, published, t);
    }
  }

  lemma ExtendedMadeFrom(j: Joint, j': Joint, t: nat)
    requires j' == j.(store := j'.store) && StoreExtends(j.store, j'.store) && LogMatches(j.store, j.push.log, j.published)
    requires t in j.push.origins && t in j.push.r.objects && MadeFrom(j, t)
    ensures MadeFrom(j', t)
  {
    hide AnnouncedBy;
    forall c | c in j'.published && c in j'.store.calls
      ensures j'.push.origins[t].from <= j'.published[c] || j'.published[c] + |AnnouncedBy(j'.store.calls[c])| <= j'.push.origins[t].from
    {
      assert Published(j.store, j.push.log, j.published, c);
    }
  }

  lemma StoreStepKeepsInv(limits: Limits, max: int, j: Joint, e: Store.Event)
    requires JointInv(max, j) && Store.Enabled(j.store, e)
    ensures JointInv(max, Step(limits, max, j, StoreStep(e)))
  {
    hide Store.SystemInv, Push.SystemInv, Store.Step, Store.Enabled, Written, LogMatches, SnapshotSound, MadeFrom, StoreExtends;
    var j' := Step(limits, max, j, StoreStep(e));
    StoreGrows(limits, j.store, e);
    StepExtendsStore(limits, j.store, e);
    StoreKeepsWritten(limits, j.store, e);
    ExtendedLogMatches(j.store, j'.store, j.push.log, j.published);
    forall h | h in j.reading ensures SnapshotSound(j'.store, |j.push.log|, j.published, j.reading[h]) {
      ExtendedSnapshot(j.store, j'.store, j.push.log, j.published, j.reading[h]);
    }
    forall t | t in j.sources ensures SnapshotSound(j'.store, |j.push.log|, j.published, j.sources[t]) {
      ExtendedSnapshot(j.store, j'.store, j.push.log, j.published, j.sources[t]);
    }
    forall t | t in j.push.origins && t in j.push.r.objects && j.push.origins[t].group == GROUP ensures MadeFrom(j', t) {
      ExtendedMadeFrom(j, j', t);
    }
  }

  // ---- a step of the registry ----

  /** What a step of the registry leaves as it was, and what it may add. */
  ghost predicate PushExtends(s: Push.System, s': Push.System, e: Push.Event) {
    && s.log <= s'.log
    && (e.DoPublish? ==> forall i :: |s.log| <= i < |s'.log| ==> s'.log[i].group == e.group)
    && (!e.DoPublish? ==> s'.log == s.log)
    && (forall t :: t in s.origins && t in s.r.objects ==>
          t in s'.origins && s'.origins[t] == s.origins[t] && t in s'.r.objects && s'.r.objects[t].readEpoch == s.r.objects[t].readEpoch)
    && (forall t :: t in s'.origins && t in s'.r.objects && t !in s.origins ==>
          && e.DoSubscribe? && t == s.r.allocations < s'.r.allocations
          && s'.origins[t] == Push.Origin(e.group, e.snapshot, |s.log|) && s'.r.objects[t].readEpoch == e.readEpoch)
    && (s.r.allocations < s'.r.allocations ==> s.r.allocations !in s.origins)
  }

  /** A subscribe allocates one object or none, and changes no other. */
  lemma SubscribeAllocates(max: int, r: Registry, connection: nat, group: nat, readEpoch: nat, snapshot: nat, replace: bool)
    ensures var r' := Subscribe(r, max, connection, group, readEpoch, snapshot, replace).0;
            || (r'.allocations == r.allocations && r'.objects == r.objects)
            || (r'.allocations == r.allocations + 1 && r'.objects == r.objects[r.allocations := Sub(readEpoch, snapshot, snapshot)])
  {
  }

  lemma SubscribeExtends(max: int, s: Push.System, e: Push.Event)
    requires Push.SystemInv(max, s) && e.DoSubscribe?
    ensures PushExtends(s, Push.Step(max, s, e), e)
  {
    hide IndexesAgree, Push.NoneLost, Push.WillWake, Push.FlightSound, Push.StandingCovered, Push.ToldSound, Subscribe;
    SubscribeAllocates(max, s.r, e.connection, e.group, e.readEpoch, e.snapshot, e.replace);
    assert s.r.allocations !in s.r.objects;
  }

  lemma PublishExtends(max: int, s: Push.System, e: Push.Event)
    requires Push.SystemInv(max, s) && e.DoPublish?
    ensures PushExtends(s, Push.Step(max, s, e), e)
  {
    hide IndexesAgree, Push.NoneLost, Push.WillWake, Push.FlightSound, Push.StandingCovered, Push.ToldSound, Raised;
  }

  lemma LoopExtends(max: int, s: Push.System, e: Push.Event)
    requires Push.SystemInv(max, s) && Push.Enabled(s, e) && !e.DoSubscribe? && !e.DoPublish?
    ensures PushExtends(s, Push.Step(max, s, e), e)
  {
    hide IndexesAgree, Push.NoneLost, Push.WillWake, Push.FlightSound, Push.StandingCovered, Push.ToldSound;
  }

  lemma StepExtendsPush(max: int, s: Push.System, e: Push.Event)
    requires Push.SystemInv(max, s) && Push.Enabled(s, e)
    ensures PushExtends(s, Push.Step(max, s, e), e)
  {
    hide Push.SystemInv, PushExtends;
    if e.DoSubscribe? { SubscribeExtends(max, s, e); } else if e.DoPublish? { PublishExtends(max, s, e); } else { LoopExtends(max, s, e); }
  }

  /** The log of another group's records still matches. */
  lemma LongerLogMatches(s: Store.System, log: seq<Push.Stored>, log': seq<Push.Stored>, published: map<nat, nat>)
    requires LogMatches(s, log, published) && log <= log'
    requires forall i :: |log| <= i < |log'| ==> log'[i].group != GROUP
    ensures LogMatches(s, log', published)
  {
    hide AnnouncedBy;
    forall t | t in published ensures Published(s, log', published, t) { assert Published(s, log, published, t); }
    forall i | 0 <= i < |log'| && log'[i].group == GROUP ensures exists t :: Covers(s, published, t, i) {
      assert log[i].group == GROUP;
    }
  }

  lemma PushStepKeepsInv(limits: Limits, max: int, j: Joint, e: Push.Event)
    requires JointInv(max, j) && Foreign(e) && Push.Enabled(j.push, e)
    ensures JointInv(max, Step(limits, max, j, PushStep(e)))
  {
    hide Store.SystemInv, Push.SystemInv, Push.Step, Push.Enabled, Written, LogMatches, AnnouncedBy, HighWater;
    var j' := Step(limits, max, j, PushStep(e));
    Push.StepKeepsInv(max, j.push, e);
    StepExtendsPush(max, j.push, e);
    LongerLogMatches(j.store, j.push.log, j'.push.log, j.published);
    forall t | t in j'.push.origins && t in j'.push.r.objects && j'.push.origins[t].group == GROUP ensures MadeFrom(j', t) {
      KnownOrigin(max, j.push, t);
      assert MadeFrom(j, t);
    }
  }

  lemma KnownOrigin(max: int, s: Push.System, t: nat)
    requires Push.SystemInv(max, s)
    ensures t in s.origins <==> t in s.r.objects
  {
  }

  // ---- announcing, reading and registering ----

  lemma PublishedLogMatches(s: Store.System, log: seq<Push.Stored>, published: map<nat, nat>, t: nat)
    requires LogMatches(s, log, published) && t in s.calls && s.calls[t].phase.Answered? && t !in published
    ensures LogMatches(s, log + Push.Entries(GROUP, AnnouncedBy(s.calls[t])), published[t := |log|])
  {
    hide AnnouncedBy;
    var log', published' := log + Push.Entries(GROUP, AnnouncedBy(s.calls[t])), published[t := |log|];
    forall u | u in published' ensures Published(s, log', published', u) {
      if u != t { assert Published(s, log, published, u); }
    }
    forall i | 0 <= i < |log'| && log'[i].group == GROUP ensures exists u :: Covers(s, published', u, i) {
      if i < |log| {
        assert log[i].group == GROUP;
        var u :| Covers(s, published, u, i);
        assert Covers(s, published', u, i);
      } else {
        assert Covers(s, published', t, i);
      }
    }
  }

  lemma PublishCallKeepsInv(limits: Limits, max: int, j: Joint, t: nat)
    requires JointInv(max, j) && Enabled(j, PublishCall(t))
    ensures JointInv(max, Step(limits, max, j, PublishCall(t)))
  {
    hide Store.SystemInv, Push.SystemInv, Push.Step, Written, LogMatches, AnnouncedBy, SnapshotsSound, AllMadeFrom, PushExtends;
    var j' := Step(limits, max, j, PublishCall(t));
    var e := Push.DoPublish(GROUP, AnnouncedBy(j.store.calls[t]));
    Push.StepKeepsInv(max, j.push, e);
    StepExtendsPush(max, j.push, e);
    PublishedLogMatches(j.store, j.push.log, j.published, t);
    LogAfterPublish(max, j.push, AnnouncedBy(j.store.calls[t]));
    PublishKeepsSnapshots(j, j', t);
    PublishKeepsMadeFrom(max, j, j', t, e);
  }

  lemma LogAfterPublish(max: int, s: Push.System, records: seq<PublishedRecord>)
    ensures Push.Step(max, s, Push.DoPublish(GROUP, records)).log == s.log + Push.Entries(GROUP, records)
  {
    hide Publish, DueKeys;
  }

  lemma PublishKeepsSnapshots(j: Joint, j': Joint, t: nat)
    requires SnapshotsSound(j) && t in j.store.calls && t !in j.published
    requires j' == j.(push := j'.push, published := j.published[t := |j.push.log|]) && |j.push.log| <= |j'.push.log|
    ensures SnapshotsSound(j')
  {
    hide AnnouncedBy, HighWater;
  }

  lemma PublishKeepsMadeFrom(max: int, j: Joint, j': Joint, t: nat, e: Push.Event)
    requires Push.SystemInv(max, j.push) && AllMadeFrom(j) && t in j.store.calls && t !in j.published && e.DoPublish?
    requires j' == j.(push := j'.push, published := j.published[t := |j.push.log|]) && PushExtends(j.push, j'.push, e)
    ensures AllMadeFrom(j')
  {
    hide AnnouncedBy, Push.SystemInv;
    forall u | u in j'.push.origins && u in j'.push.r.objects && j'.push.origins[u].group == GROUP ensures MadeFrom(j', u) {
      KnownOrigin(max, j.push, u);
      assert MadeFrom(j, u);
    }
  }

  /** What an answered call announces are rows of the log. */
  lemma AnnouncedRowsExist(s: Store.System, t: nat)
    requires Store.SystemInv(s) && t in s.calls && s.calls[t].phase.Answered?
    ensures IdsWithin(AnnouncedBy(s.calls[t]), |s.group.records|)
  {
    hide Store.LockSound, Store.ReaderSound, GroupInv, Announced, Store.ResultsSound;
    assert Store.CallSound(s.group, s.calls[t]);
    ShapeParts(s.group);
    SoundResultsWithin(s.group, s.calls[t].request.records, s.calls[t].phase.results);
  }

  lemma SoundResultsWithin(g: Group, batch: seq<Record>, results: seq<SubmitResult>)
    requires ClaimsMatch(g) && Store.ResultsSound(g, batch, results)
    ensures IdsWithin(Announced(batch, results), |g.records|)
  {
    hide ClaimsMatch, Announced;
    var stored := Announced(batch, results);
    forall n: nat | n < |stored| ensures stored[n].recordId <= |g.records| {
      var i := AnnouncedComesFrom(batch, results, n);
      assert Store.ResultSound(g, batch[i], results[i]);
      ClaimNamesItsRow(g, batch[i]);
    }
  }

  lemma ReadKeepsInv(limits: Limits, max: int, j: Joint, e: Event)
    requires JointInv(max, j) && Enabled(j, e) && e.ReadSnapshot?
    ensures JointInv(max, Step(limits, max, j, e))
  {
    hide Store.SystemInv, Push.SystemInv, LogMatches, AnnouncedBy, HighWater, HasWriter;
    var rows := j.store.group.records;
    assert rows[..|rows|] == rows;
    forall t | t in j.published && t in j.store.calls ensures IdsWithin(AnnouncedBy(j.store.calls[t]), |rows|) {
      PublishedAnswered(j, t);
      AnnouncedRowsExist(j.store, t);
    }
    forall t | t in j.push.origins && t in j.push.r.objects && j.push.origins[t].group == GROUP
      ensures MadeFrom(Step(limits, max, j, e), t)
    {
      assert MadeFrom(j, t);
    }
  }

  lemma PublishedAnswered(j: Joint, t: nat)
    requires LogMatches(j.store, j.push.log, j.published) && t in j.published
    ensures Published(j.store, j.push.log, j.published, t)
  {
  }

  lemma RegisterKeepsInv(limits: Limits, max: int, j: Joint, h: nat)
    requires JointInv(max, j) && h in j.reading
    ensures JointInv(max, Step(limits, max, j, Register(h)))
  {
    hide Store.SystemInv, Push.SystemInv, Push.Step, Written, LogMatches, AnnouncedBy, HighWater;
    var j' := Step(limits, max, j, Register(h));
    var e := Registration(j.reading[h]);
    Push.StepKeepsInv(max, j.push, e);
    StepExtendsPush(max, j.push, e);
    assert j'.push.log == j.push.log;
    forall t | t in j'.push.origins && t in j'.push.r.objects && j'.push.origins[t].group == GROUP ensures MadeFrom(j', t) {
      KnownOrigin(max, j.push, t);
      if t in j.push.origins {
        assert MadeFrom(j, t);
      } else {
        forall c | c in j.published && c in j.store.calls ensures j.published[c] + |AnnouncedBy(j.store.calls[c])| <= |j.push.log| {
          PublishedAnswered(j, c);
        }
      }
    }
  }

  lemma StepKeepsInv(limits: Limits, max: int, j: Joint, e: Event)
    requires JointInv(max, j) && Enabled(j, e)
    ensures JointInv(max, Step(limits, max, j, e))
  {
    hide JointInv;
    match e
    case StoreStep(s) => StoreStepKeepsInv(limits, max, j, s);
    case PushStep(p) => PushStepKeepsInv(limits, max, j, p);
    case PublishCall(t) => PublishCallKeepsInv(limits, max, j, t);
    case ReadSnapshot(_, _, _, _) => ReadKeepsInv(limits, max, j, e);
    case Register(h) => RegisterKeepsInv(limits, max, j, h);
  }

  function Exec(limits: Limits, max: int, j: Joint, events: seq<Event>): Option<Joint>
    decreases |events|
  {
    if |events| == 0 then Some(j)
    else if !Enabled(j, events[0]) then None
    else Exec(limits, max, Step(limits, max, j, events[0]), events[1..])
  }

  lemma {:induction false} RunKeepsInv(limits: Limits, max: int, j: Joint, events: seq<Event>)
    requires JointInv(max, j) && Exec(limits, max, j, events).Some?
    ensures JointInv(max, Exec(limits, max, j, events).value)
    decreases |events|
  {
    hide JointInv, Step, Enabled;
    if |events| != 0 {
      StepKeepsInv(limits, max, j, events[0]);
      RunKeepsInv(limits, max, Step(limits, max, j, events[0]), events[1..]);
    }
  }
}
