/**
 What the transaction promises, over every run: from any founding commit, through any interleaving
 of submissions, closes and readers.
 */
module GroupTheorems {
  import opened Common
  import opened Records
  import opened GroupTransaction
  import opened GroupLog
  import opened GroupBatch
  import opened GroupFetch
  import opened GroupRuns

  /** A founding commit starts a group of the log's shape. */
  lemma FoundedNames(limits: Limits, request: CreateRequest, now: Time)
    requires FoundingCommit(request)
    ensures var g := Founded(limits, request, now);
            Gapless(g) && EpochsOrdered(g) && ClaimsMatch(g) && SendersMatch(g) && PinsMatch(g)
  {
    hide OpeningOf, Apply, PruneAfter;
    var g := Founded(limits, request, now);
    forall key | key in g.claims ensures ClaimNames(g, key) {}
    assert PinAgrees(g, At(g, 0));
    forall h | h in g.recovery ensures PinnedBy(g, 0, h) {}
  }

  lemma FoundedAccounts(limits: Limits, request: CreateRequest, now: Time)
    requires FoundingCommit(request)
    ensures AccountsMatch(Founded(limits, request, now))
  {
    hide OpeningOf, Apply, PruneAfter, WellFormedEpochAttachment, NextRecovery, RecordBytes;
    var g := Founded(limits, request, now);
    forall s ensures SentBy(g.records, s) ==
                     if s in g.senders then (g.senders[s].recordCount, g.senders[s].byteCount) else (0, 0)
    {
      assert SentBy(g.records[..0], s) == (0, 0);
    }
  }

  lemma FoundedEpochs(limits: Limits, request: CreateRequest, now: Time)
    requires FoundingCommit(request)
    ensures var g := Founded(limits, request, now);
            CommitsMatch(g) && KeysMatch(g) && MarkersMatch(g)
  {
    hide Apply, PruneAfter, NextRecovery;
    var g := Founded(limits, request, now);
    assert CommitNames(g, 0) && ClosesEpoch(g, 0);
    assert EpochRowMatches(g, 0) && EpochRowMatches(g, 1);
  }

  lemma FoundedInv(limits: Limits, request: CreateRequest, now: Time)
    requires FoundingCommit(request)
    ensures GroupInv(Founded(limits, request, now))
  {
    FoundedNames(limits, request, now);
    FoundedAccounts(limits, request, now);
    FoundedEpochs(limits, request, now);
  }

  /** `s` is where some run from a founding commit leads. */
  ghost predicate Reachable(limits: Limits, request: CreateRequest, now: Time, events: seq<Event>, s: System) {
    && FoundingCommit(request)
    && Exec(limits, System(Founded(limits, request, now), None, map[], map[]), events) == Some(s)
  }

  /** The log invariant, the lock discipline and the soundness of every call and reader, in every run. */
  lemma EveryRunKeepsTheLog(limits: Limits, request: CreateRequest, now: Time, events: seq<Event>, s: System)
    requires Reachable(limits, request, now, events, s)
    ensures SystemInv(s) && GroupInv(s.group)
  {
    hide GroupInv, Founded, Exec;
    FoundedInv(limits, request, now);
    RunKeepsInv(limits, System(Founded(limits, request, now), None, map[], map[]), events);
  }

  /**
   In any interleaving, every acceptance of one (sender, stream index) names the same id; that id is
   the one row of the log that holds the index, and the row has the content that was accepted.
   */
  lemma AcceptancesNameOneRow(s: System, t: nat, i: nat, u: nat, j: nat)
    requires SystemInv(s)
    requires t in s.calls && s.calls[t].phase.Answered? && i < |s.calls[t].request.records| == |s.calls[t].phase.results|
    requires u in s.calls && s.calls[u].phase.Answered? && j < |s.calls[u].request.records| == |s.calls[u].phase.results|
    requires Accepted(s.calls[t].phase.results[i].reason) && Accepted(s.calls[u].phase.results[j].reason)
    requires KeyOf(s.calls[t].request.records[i]) == KeyOf(s.calls[u].request.records[j])
    ensures s.calls[t].phase.results[i].recordId == s.calls[u].phase.results[j].recordId
    ensures var record, id := s.calls[t].request.records[i], s.calls[t].phase.results[i].recordId;
            forall k: nat :: k < |s.group.records| ==>
              (KeyOf(At(s.group, k)) == KeyOf(record) <==> k + 1 == id)
    ensures var record, id := s.calls[t].request.records[i], s.calls[t].phase.results[i].recordId;
            && 1 <= id <= |s.group.records|
            && At(s.group, id - 1).bodyHash == record.bodyHash
            && At(s.group, id - 1).headHash == record.headHash
  {
    var record, id := s.calls[t].request.records[i], s.calls[t].phase.results[i].recordId;
    assert CallSound(s.group, s.calls[t]) && CallSound(s.group, s.calls[u]);
    assert ResultSound(s.group, record, s.calls[t].phase.results[i]);
    assert ResultSound(s.group, s.calls[u].request.records[j], s.calls[u].phase.results[j]);
    ClaimIsTheOneRow(s.group, record, id);
  }

  lemma ClaimIsTheOneRow(g: Group, record: Record, id: nat)
    requires ClaimsMatch(g) && ClaimedAs(g, record, id)
    ensures forall k: nat :: k < |g.records| ==> (KeyOf(At(g, k)) == KeyOf(record) <==> k + 1 == id)
    ensures 1 <= id <= |g.records| && SameContent(g.claims[KeyOf(record)], At(g, id - 1))
  {
    assert ClaimNames(g, KeyOf(record));
  }

  // ---- the stale probe ----

  /** The batch's own high waters never fall below the group's. */
  ghost predicate Ahead(g: Group, highWater: map<Bytes, nat>) {
    forall s :: s in highWater && s in g.senders ==> g.senders[s].lastStreamIndex <= highWater[s]
  }

  lemma ClaimedRecordIsRefused(g: Group, record: Record, keys: Option<EpochKeyDelivery>,
                               highWater: map<Bytes, nat>, pinned: map<Bytes, Bytes>)
    requires SendersMatch(g) && Ahead(g, highWater) && KeyOf(record) in g.claims
    ensures Gate(g, StateOf(g), record, keys, highWater, pinned) != ReasonOk
  {
    hide WellFormedEpochAttachment, Rebinds;
    assert Regresses(record, LastIndex(g.senders, highWater, record.sender));
  }

  /**
   A record step (0) found absent that has been claimed since is refused under the lock, and the
   whole batch with it: a stale probe can turn an answer into a refusal and into nothing else.
   */
  lemma {:induction false} StaleProbeIsRefused(
    g: Group, batch: seq<Record>, outcomes: seq<Probe>, keys: Option<EpochKeyDelivery>, next: nat,
    highWater: map<Bytes, nat>, pinned: map<Bytes, Bytes>, i: nat)
    requires SendersMatch(g) && Ahead(g, highWater)
    requires |outcomes| == |batch| && next <= i < |batch|
    requires outcomes[i] == Absent && KeyOf(batch[i]) in g.claims
    ensures GateFrom(g, StateOf(g), batch, outcomes, keys, next, highWater, pinned).Refused?
    decreases |batch| - next
  {
    hide Gate, SendersMatch;
    if outcomes[next] != Absent {
      StaleProbeIsRefused(g, batch, outcomes, keys, next + 1, highWater, pinned, i);
    } else if Gate(g, StateOf(g), batch[next], keys, highWater, pinned) == ReasonOk {
      if next == i {
        ClaimedRecordIsRefused(g, batch[i], keys, highWater, pinned);
      } else {
        GateKeepsAhead(g, batch[next], keys, highWater, pinned);
        StaleProbeIsRefused(g, batch, outcomes, keys, next + 1,
                            NoteHighWater(highWater, batch[next]), NotePin(pinned, batch[next]), i);
      }
    }
  }

  lemma GateKeepsAhead(g: Group, record: Record, keys: Option<EpochKeyDelivery>,
                       highWater: map<Bytes, nat>, pinned: map<Bytes, Bytes>)
    requires Ahead(g, highWater) && Gate(g, StateOf(g), record, keys, highWater, pinned) == ReasonOk
    ensures Ahead(g, NoteHighWater(highWater, record))
  {
    hide WellFormedEpochAttachment, Rebinds;
  }

  /** In any reachable system, a submission under the lock whose probe has gone stale can only be refused. */
  lemma StaleSubmissionIsRefused(s: System, t: nat, i: nat)
    requires SystemInv(s) && t in s.calls && s.calls[t].phase.Gating?
    requires i < |s.calls[t].request.records| == |s.calls[t].phase.outcomes|
    requires s.calls[t].phase.outcomes[i] == Absent && KeyOf(s.calls[t].request.records[i]) in s.group.claims
    ensures var c := s.calls[t];
            GateFrom(s.group, c.phase.state, c.request.records, c.phase.outcomes, c.request.keys,
                     c.phase.next, c.phase.highWater, c.phase.pinned).Refused?
  {
    var c := s.calls[t];
    assert CallSound(s.group, c);
    StaleProbeIsRefused(s.group, c.request.records, c.phase.outcomes, c.request.keys, 0, map[], map[], i);
  }

  // ---- refusals ----

  /** Whether any record of an answer was refused. */
  ghost predicate SomeRefused(results: seq<SubmitResult>) {
    exists i :: 0 <= i < |results| && !Accepted(results[i].reason)
  }

  /** Closing apart, a step changes the group only for a submission all of whose records it accepts. */
  lemma OnlyWholeAcceptancesWrite(limits: Limits, s: System, e: Event)
    requires SystemInv(s) && Enabled(s, e) && !e.CloseGroup? && Step(limits, s, e).group != s.group
    ensures e.CommitCall?
    ensures var p := Step(limits, s, e).calls[e.t].phase;
            p.Answered? && !SomeRefused(p.results)
  {
    hide GroupInv, CommitBatch;
    if e.CommitCall? {
      assert CallSound(s.group, s.calls[e.t]);
      CommittedIsAccepted(limits, s.group, s.calls[e.t].request, s.calls[e.t].phase, e.now);
    }
  }

  lemma CommittedIsAccepted(limits: Limits, g: Group, request: SubmitRequest, p: Phase, now: Time)
    requires CommitAlone(request.records)
    requires p.Gating? && GatingSound(g, request, p) && p.next == |request.records|
    ensures var p' := AfterCommit(limits, g, request, p, now).1;
            p'.Answered? && !SomeRefused(p'.results)
  {
    hide CommitBatch, ProbeSound, GateFrom;
    GatedCommitHasNotLost(g, request, p);
  }

  // ---- idempotence ----

  ghost predicate AllAccepted(results: seq<SubmitResult>) {
    forall i :: 0 <= i < |results| ==> Accepted(results[i].reason)
  }

  /**
   A submission answered with acceptances throughout stays idempotent: resubmitted against the group
   as any later run leaves it, closed or not, every record is accepted under its original id and
   nothing changes.
   */
  lemma AcceptedStaysIdempotent(limits: Limits, s: System, events: seq<Event>, t: nat, now: Time)
    requires SystemInv(s) && Exec(limits, s, events).Some?
    requires t in s.calls && s.calls[t].phase.Answered? && AllAccepted(s.calls[t].phase.results)
    ensures |s.calls[t].phase.results| == |s.calls[t].request.records|
    ensures var later := Exec(limits, s, events).value.group;
            var again := Submit(limits, Some(later), s.calls[t].request, now);
            && again.group == Some(later)
            && |again.results| == |s.calls[t].phase.results|
            && forall i :: 0 <= i < |again.results| ==>
                 && Accepted(again.results[i].reason)
                 && again.results[i].recordId == s.calls[t].phase.results[i].recordId
  {
    hide Extends, GroupInv, Exec;
    var later := Exec(limits, s, events).value.group;
    RunKeepsInv(limits, s, events);
    var batch, results := s.calls[t].request.records, s.calls[t].phase.results;
    assert CallSound(s.group, s.calls[t]);
    ResultsPersist(s.group, later, batch, results);
    ClaimedBatchIsIdempotent(limits, later, s.calls[t].request, results, now);
  }

  lemma ClaimedBatchIsIdempotent(limits: Limits, g: Group, request: SubmitRequest, results: seq<SubmitResult>, now: Time)
    requires ResultsSound(g, request.records, results) && AllAccepted(results)
    ensures var again := Submit(limits, Some(g), request, now);
            && again.group == Some(g)
            && |again.results| == |results|
            && forall i :: 0 <= i < |results| ==>
                 Accepted(again.results[i].reason) && again.results[i].recordId == results[i].recordId
  {
    hide GateFrom, CommitBatch, CommittedResults, WinnerFor;
    var outcomes := ProbeBatch(g.claims, request.records);
    forall i | 0 <= i < |results| ensures outcomes[i] == Identical(results[i].recordId) {
      assert ResultSound(g, request.records[i], results[i]);
    }
  }

  /** Accepted again throughout, under these ids. */
  ghost predicate SameAcceptances(results: seq<SubmitResult>, again: seq<SubmitResult>) {
    && |again| == |results|
    && (forall i :: 0 <= i < |again| ==> Accepted(again[i].reason) && again[i].recordId == results[i].recordId)
  }

  /** How far a retry of an accepted batch can have come: it probes, finds every row, and is answered without the lock. */
  ghost predicate OnlyProbes(phase: Phase, results: seq<SubmitResult>) {
    match phase
    case Arrived => true
    case Probed(outcomes) => |outcomes| == |results| && forall i :: 0 <= i < |outcomes| ==> outcomes[i] == Identical(results[i].recordId)
    case Answered(again) => SameAcceptances(results, again)
    case _ => false
  }

  ghost predicate RetryOnCourse(s: System, u: nat, batch: seq<Record>, results: seq<SubmitResult>) {
    u in s.calls && s.calls[u].request.records == batch ==> OnlyProbes(s.calls[u].phase, results)
  }

  lemma RetryProbes(g: Group, batch: seq<Record>, results: seq<SubmitResult>)
    requires ResultsSound(g, batch, results) && AllAccepted(results)
    ensures OnlyProbes(Probed(ProbeBatch(g.claims, batch)), results)
  {
    forall i | 0 <= i < |results| ensures ProbeBatch(g.claims, batch)[i] == Identical(results[i].recordId) {
      assert ResultSound(g, batch[i], results[i]);
    }
  }

  lemma {:induction false} RetryIsAnswered(g: Group, batch: seq<Record>, results: seq<SubmitResult>, outcomes: seq<Probe>)
    requires |outcomes| == |batch| && OnlyProbes(Probed(outcomes), results)
    ensures AnsweredByProbe(outcomes) && OnlyProbes(Answered(EarlyResults(g, batch, outcomes)), results)
  {
    hide WinnerFor;
  }

  lemma StepKeepsRetryOnCourse(limits: Limits, s: System, e: Event, u: nat, batch: seq<Record>, results: seq<SubmitResult>)
    requires Enabled(s, e) && ResultsSound(s.group, batch, results) && AllAccepted(results)
    requires RetryOnCourse(s, u, batch, results)
    ensures RetryOnCourse(Step(limits, s, e), u, batch, results)
  {
    hide ResultSound, AllAccepted, ProbeBatch, EarlyResults, AnsweredByProbe, AfterRead, AfterGate, AfterCommit, RefuseBatch, Close, AfterFetch,
         ValidateBatch, SameAcceptances;
    if u in s.calls && s.calls[u].request.records == batch {
      match e
      case ProbeCall(t) => if t == u { RetryProbes(s.group, batch, results); }
      case AnswerEarly(t) => if t == u { RetryIsAnswered(s.group, batch, results, s.calls[u].phase.outcomes); }
      case LockRow(t) => if t == u { RetryIsAnswered(s.group, batch, results, s.calls[u].phase.outcomes); }
      case _ =>
    }
  }

  lemma {:induction false} RunKeepsRetryOnCourse(limits: Limits, s: System, events: seq<Event>, u: nat, batch: seq<Record>, results: seq<SubmitResult>)
    requires SystemInv(s) && Exec(limits, s, events).Some? && ResultsSound(s.group, batch, results) && AllAccepted(results)
    requires RetryOnCourse(s, u, batch, results)
    ensures RetryOnCourse(Exec(limits, s, events).value, u, batch, results)
    decreases |events|
  {
    hide SystemInv, ResultsSound, AllAccepted, RetryOnCourse, Step, Enabled, Extends;
    if |events| != 0 {
      StepKeepsInv(limits, s, events[0]);
      var s' := Step(limits, s, events[0]);
      ResultsPersist(s.group, s'.group, batch, results);
      StepKeepsRetryOnCourse(limits, s, events[0], u, batch, results);
      RunKeepsRetryOnCourse(limits, s', events[1..], u, batch, results);
    }
  }

  /**
   And a retry among other calls: one that has not probed by the time the first was answered with
   acceptances throughout never takes the row lock, whatever runs between its steps, and once answered
   it is accepted throughout under the same ids.
   */
  lemma RetryIsAcceptedAlike(limits: Limits, s: System, events: seq<Event>, t: nat, u: nat)
    requires SystemInv(s) && Exec(limits, s, events).Some?
    requires t in s.calls && s.calls[t].phase.Answered? && AllAccepted(s.calls[t].phase.results)
    requires u in s.calls ==> s.calls[u].phase.Arrived?
    ensures var later := Exec(limits, s, events).value;
            u in later.calls && later.calls[u].request.records == s.calls[t].request.records ==>
              && !HoldsRow(later.calls[u].phase)
              && (later.calls[u].phase.Answered? ==> SameAcceptances(s.calls[t].phase.results, later.calls[u].phase.results))
  {
    hide Exec, AllAccepted, ResultsSound, SameAcceptances, GroupInv;
    assert CallSound(s.group, s.calls[t]);
    RunKeepsRetryOnCourse(limits, s, events, u, s.calls[t].request.records, s.calls[t].phase.results);
  }

  // ---- the loser protocol ----

  lemma LostCommitAnswer(limits: Limits, g: Group, record: Record, keys: Option<EpochKeyDelivery>, now: Time)
    requires !g.closed && record.isCommit && record.epoch in g.commits && KeyOf(record) !in g.claims
    requires g.currentEpoch != 0
    ensures var submitted := Submit(limits, Some(g), SubmitRequest([record], keys), now);
            && submitted.group == Some(g)
            && submitted.results == [SubmitResult(ReasonCommitLost, 0, g.currentEpoch,
                                                  Some(g.commits[record.epoch].record), None)]
  {
    hide CommitBatch, CommittedResults, WellFormedEpochAttachment, Rebinds, Regresses;
    var outcomes := ProbeBatch(g.claims, [record]);
    assert outcomes == [Absent];
    assert GateFrom(g, StateOf(g), [record], outcomes, keys, 0, map[], map[]) == Refused(0, ReasonCommitLost);
  }

  /**
   With nothing else in flight, a commit of an open group that step (0) did not settle, at an epoch that
   has been superseded, is told it lost and is handed the record that won, the last of its epoch.
   */
  lemma LateCommitAlone(limits: Limits, g: Group, record: Record, keys: Option<EpochKeyDelivery>, now: Time)
    requires GroupInv(g) && !g.closed
    requires record.isCommit && record.epoch < g.currentEpoch && KeyOf(record) !in g.claims
    ensures record.epoch in g.commits
    ensures var submitted := Submit(limits, Some(g), SubmitRequest([record], keys), now);
            && submitted.group == Some(g)
            && submitted.results == [SubmitResult(ReasonCommitLost, 0, g.currentEpoch,
                                                  Some(g.commits[record.epoch].record), None)]
    ensures var won := g.commits[record.epoch];
            && won.record.isCommit && won.record.epoch == record.epoch
            && 1 <= won.recordId <= |g.records| && won.record == At(g, won.recordId - 1)
            && forall k: nat :: won.recordId <= k < |g.records| ==> record.epoch < At(g, k).epoch
  {
    hide GroupInv, Submit, EpochRowMatches;
    EpochHasItsCommit(g, record.epoch);
    LostCommitAnswer(limits, g, record, keys, now);
  }

  /** A commit is the last record of its epoch, and the epoch's only commit. */
  lemma CommitClosesItsEpoch(g: Group, i: nat)
    requires CommitsMatch(g) && i < |g.records| && At(g, i).isCommit
    ensures At(g, i).epoch < g.currentEpoch
    ensures forall k: nat :: i < k < |g.records| ==> At(g, i).epoch < At(g, k).epoch
    ensures forall k: nat :: k < |g.records| && k != i && At(g, k).isCommit ==> At(g, i).epoch != At(g, k).epoch
  {
    var e := At(g, i).epoch;
    assert e in g.commits && g.commits[e].recordId == i + 1 && ClosesEpoch(g, e);
  }

  /** The last record of a superseded epoch is a commit. */
  lemma EpochEndsInACommit(g: Group, i: nat)
    requires CommitsMatch(g) && i < |g.records| && At(g, i).epoch < g.currentEpoch
    requires forall k: nat :: i < k < |g.records| ==> At(g, i).epoch < At(g, k).epoch
    ensures At(g, i).isCommit
  {
    var e := At(g, i).epoch;
    assert e in g.commits && CommitNames(g, e) && ClosesEpoch(g, e);
    var c: nat := g.commits[e].recordId - 1;
    assert At(g, c).epoch == e;
  }

  /** Commits are exactly the last records of the superseded epochs, one to each epoch. */
  lemma CommitsAreTheEpochBoundaries(g: Group, i: nat)
    requires GroupInv(g) && i < |g.records|
    ensures At(g, i).isCommit <==>
              (At(g, i).epoch < g.currentEpoch && forall k: nat :: i < k < |g.records| ==> At(g, i).epoch < At(g, k).epoch)
    ensures At(g, i).isCommit ==>
              forall k: nat :: k < |g.records| && k != i && At(g, k).isCommit ==> At(g, i).epoch != At(g, k).epoch
  {
    hide CommitsMatch;
    if At(g, i).isCommit {
      CommitClosesItsEpoch(g, i);
    } else if At(g, i).epoch < g.currentEpoch && forall k: nat :: i < k < |g.records| ==> At(g, i).epoch < At(g, k).epoch {
      EpochEndsInACommit(g, i);
    }
  }

  // ---- the fan-out marker ----

  /** A commit that opened `e`, a marker after it carrying the count that commit announced, both before `limit`. */
  ghost predicate MarkedOpen(g: Group, e: nat, c: nat, j: nat, limit: nat)
    requires limit <= |g.records|
  {
    && c < j < limit
    && At(g, c).isCommit && OpensEpoch(At(g, c)) == Some(e)
    && EpochCompleteTagOf(At(g, j)).Some?
    && EpochCompleteTagOf(At(g, j)).value.epoch == e
    && Some(EpochCompleteTagOf(At(g, j)).value.wrapCount) == AnnouncedWraps(At(g, c))
  }

  lemma MarkerIsMarkedOpen(g: Group, e: nat, limit: nat)
    requires limit <= |g.records| && MarkerBefore(g, e, limit)
    requires CommitNames(g, e - 1) && EpochRowMatches(g, e)
    ensures exists c: nat, j: nat :: MarkedOpen(g, e, c, j, limit)
  {
    var j: nat :| g.commits[e - 1].recordId <= j < limit
               && IsMarkerOf(At(g, j), e, AnnouncedWraps(g.commits[e - 1].record));
    var c: nat := g.commits[e - 1].recordId - 1;
    assert MarkedOpen(g, e, c, j, limit);
  }

  /**
   In every reachable group, a record at epoch e >= 1 that is neither a wrap nor a marker comes after
   a stored marker that names e and carries exactly the wrap count announced by the commit that
   opened e, and that marker comes after that commit.
   */
  lemma OrdinaryRecordsFollowTheirMarker(g: Group, i: nat)
    requires GroupInv(g) && i < |g.records|
    requires 1 <= At(g, i).epoch && !ExemptFromEpochComplete(At(g, i))
    ensures exists c: nat, j: nat :: MarkedOpen(g, At(g, i).epoch, c, j, i)
  {
    var e := At(g, i).epoch;
    assert MarkerBefore(g, e, i) && At(g, i).epoch <= g.currentEpoch;
    hide GroupInv;
    EpochHasItsCommit(g, e - 1);
    MarkerIsMarkedOpen(g, e, i);
  }

  /** A marker cannot open the group for a record of its own batch. */
  lemma {:induction false} MarkerOpensNothingInItsBatch(
    g: Group, batch: seq<Record>, outcomes: seq<Probe>, keys: Option<EpochKeyDelivery>, next: nat,
    highWater: map<Bytes, nat>, pinned: map<Bytes, Bytes>)
    requires |outcomes| == |batch| && next <= |batch| && !g.epochComplete
    requires GateFrom(g, StateOf(g), batch, outcomes, keys, next, highWater, pinned) == Passed
    ensures forall i :: next <= i < |batch| && outcomes[i] == Absent ==> ExemptFromEpochComplete(batch[i])
    decreases |batch| - next
  {
    hide WellFormedEpochAttachment, Rebinds, Regresses;
    if next < |batch| {
      if outcomes[next] != Absent {
        MarkerOpensNothingInItsBatch(g, batch, outcomes, keys, next + 1, highWater, pinned);
      } else {
        MarkerOpensNothingInItsBatch(g, batch, outcomes, keys, next + 1,
                                     NoteHighWater(highWater, batch[next]), NotePin(pinned, batch[next]));
      }
    }
  }

  // ---- key custody ----

  /** The keys an accepted commit installs are the request's exactly when its attachment is the digest kind. */
  lemma InstalledKeys(limits: Limits, g: Group, record: Record, keys: Option<EpochKeyDelivery>, now: Time)
    requires GroupInv(g) && record.isCommit && Gated(g, [record], [Absent], keys)
    ensures var g' := CommitBatch(limits, g, g.currentEpoch, keys, [record], [Absent], now);
            && g'.currentEpoch == g.currentEpoch + 1
            && g'.currentEpoch in g'.epochs
            && keys.Some? == (KindOf(record) == AttachmentEpochDigest)
            && (keys.None? ==> KindOf(record) == AttachmentEpoch && record.attachment.value.epoch.Some?)
            && g'.epochs[g'.currentEpoch].writeKey
               == Some(if keys.Some? then keys.value.writeKey else record.attachment.value.epoch.value.writeKey)
            && g'.epochs[g'.currentEpoch].readKey
               == Some(if keys.Some? then keys.value.readKey else record.attachment.value.epoch.value.readKey)
  {
    hide GroupInv, Apply, PruneAfter, NextRecovery, NextSenderRow;
    assert Admits(g, keys, record);
    AdmittedCommit(g, keys, record);
    var bumped := Allocate(g, CountAbsent([Absent], 1));
    var g' := StoreRecord(limits, bumped, g.currentEpoch, keys, record, g.nextRecordId, now);
    assert CommitBatch(limits, g, g.currentEpoch, keys, [record], [Absent], now) == g' by {
      hide StoreRecord;
      assert StoreFrom(limits, g', g.currentEpoch, keys, [record], [Absent], 1, g.nextRecordId + 1, now) == g';
    }
  }
}
