/**
 What a submission announces to the push registry, from every answer it can get: each accepted result
 that names a record, at the epoch the submitted record names.
 */
module Announcements {
  import opened Common
  import opened Records
  import opened GroupTransaction
  import opened GroupLog
  import opened GroupBatch
  import opened GroupFetch
  import opened Subscriptions

  predicate Announces(batch: seq<Record>, results: seq<SubmitResult>, i: nat) {
    i < |batch| && i < |results| && Accepted(results[i].reason) && results[i].recordId != 0
  }

  function Announcement(batch: seq<Record>, results: seq<SubmitResult>, i: nat): PublishedRecord
    requires Announces(batch, results, i)
  {
    PublishedRecord(results[i].recordId, batch[i].epoch)
  }

  /** The announcements of the first `n` results, in order. */
  function AnnouncedTo(batch: seq<Record>, results: seq<SubmitResult>, n: nat): (stored: seq<PublishedRecord>)
    ensures forall p :: p in stored ==> exists i: nat :: i < n && Announces(batch, results, i) && p == Announcement(batch, results, i)
    ensures forall i: nat :: i < n && Announces(batch, results, i) ==> Announcement(batch, results, i) in stored
  {
    if n == 0 then []
    else
      var rest := AnnouncedTo(batch, results, n - 1);
      if Announces(batch, results, n - 1) then rest + [Announcement(batch, results, n - 1)] else rest
  }

  function Announced(batch: seq<Record>, results: seq<SubmitResult>): seq<PublishedRecord> {
    AnnouncedTo(batch, results, |results|)
  }

  lemma AnnouncedComesFrom(batch: seq<Record>, results: seq<SubmitResult>, n: nat) returns (i: nat)
    requires n < |Announced(batch, results)|
    ensures Announces(batch, results, i) && Announced(batch, results)[n] == Announcement(batch, results, i)
  {
    assert Announced(batch, results)[n] in Announced(batch, results);
    i :| Announces(batch, results, i) && Announced(batch, results)[n] == Announcement(batch, results, i);
  }

  lemma AnnouncesAppears(batch: seq<Record>, results: seq<SubmitResult>, i: nat) returns (n: nat)
    requires Announces(batch, results, i)
    ensures n < |Announced(batch, results)| && Announced(batch, results)[n] == Announcement(batch, results, i)
  {
    assert Announcement(batch, results, i) in Announced(batch, results);
    n :| n < |Announced(batch, results)| && Announced(batch, results)[n] == Announcement(batch, results, i);
  }

  method PublishAccepted(batch: seq<Record>, results: seq<SubmitResult>) returns (stored: seq<PublishedRecord>)
    ensures stored == Announced(batch, results)
    ensures forall i: nat :: Announces(batch, results, i) ==> Announcement(batch, results, i) in stored
    ensures forall p :: p in stored ==> exists i: nat :: Announces(batch, results, i) && p == Announcement(batch, results, i)
  {
    stored := [];
    for index := 0 to |results|
      invariant stored == AnnouncedTo(batch, results, index)
    {
      if !Accepted(results[index].reason) || results[index].recordId == 0 || |batch| <= index {
        continue;
      }
      stored := stored + [PublishedRecord(results[index].recordId, batch[index].epoch)];
    }
  }

  // ---- what is announced is what was stored ----

  /** An announcement names a row of the log at the row's own epoch. */
  ghost predicate Truthful(g: Group, p: PublishedRecord) {
    1 <= p.recordId <= |g.records| && At(g, p.recordId - 1).epoch == p.epoch
  }

  lemma StoreAppendsIt(limits: Limits, g: Group, epoch: nat, keys: Option<EpochKeyDelivery>, record: Record, recordId: nat, now: Time)
    ensures var g' := StoreRecord(limits, g, epoch, keys, record, recordId, now);
            && |g'.records| == |g.records| + 1 && g.records <= g'.records
            && g'.records[|g.records|].record == Stored(record, recordId)
  {
  }

  /** The rows a batch appends are its unsettled records, in order. */
  lemma {:induction false} StoreFromAppends(
    limits: Limits, g: Group, epoch: nat, keys: Option<EpochKeyDelivery>, batch: seq<Record>, outcomes: seq<Probe>,
    next: nat, recordId: nat, now: Time, i: nat)
    requires |outcomes| == |batch| && next <= i < |batch| && outcomes[i] == Absent
    ensures var g' := StoreFrom(limits, g, epoch, keys, batch, outcomes, next, recordId, now);
            var before := CountAbsent(outcomes, i) - CountAbsent(outcomes, next);
            && 0 <= before && |g.records| + before < |g'.records|
            && g'.records[|g.records| + before].record == Stored(batch[i], recordId + before)
    decreases |batch| - next
  {
    hide StoreRecord;
    if outcomes[next] != Absent {
      StoreFromAppends(limits, g, epoch, keys, batch, outcomes, next + 1, recordId, now, i);
    } else {
      var g1 := StoreRecord(limits, g, epoch, keys, batch[next], recordId, now);
      StoreAppendsIt(limits, g, epoch, keys, batch[next], recordId, now);
      StoreFromAllocates(limits, g1, epoch, keys, batch, outcomes, next + 1, recordId + 1, now);
      if next < i { StoreFromAppends(limits, g1, epoch, keys, batch, outcomes, next + 1, recordId + 1, now, i); }
    }
  }

  /** A committed batch's unsettled record is announced under its new row, at that row's epoch. */
  lemma {:induction false} StoredIsAnnouncedTrue(limits: Limits, g: Group, keys: Option<EpochKeyDelivery>, batch: seq<Record>,
                              outcomes: seq<Probe>, now: Time, i: nat)
    requires g.nextRecordId == |g.records| + 1 && |outcomes| == |batch| && i < |batch| && outcomes[i] == Absent
    ensures var g' := CommitBatch(limits, g, g.currentEpoch, keys, batch, outcomes, now);
            var results := CommittedResults(limits, StateOf(g), keys, batch, outcomes, g.nextRecordId);
            && Announces(batch, results, i) && results[i].recordId == |g.records| + 1 + CountAbsent(outcomes, i)
            && Truthful(g', Announcement(batch, results, i))
            && At(g', results[i].recordId - 1) == Stored(batch[i], results[i].recordId)
  {
    hide StoreFrom, AppliedFor;
    var bumped := Allocate(g, CountAbsent(outcomes, |batch|));
    StoreFromAllocates(limits, bumped, g.currentEpoch, keys, batch, outcomes, 0, g.nextRecordId, now);
    StoreFromAppends(limits, bumped, g.currentEpoch, keys, batch, outcomes, 0, g.nextRecordId, now, i);
  }

  lemma ClaimNamesItsRow(g: Group, record: Record)
    requires ClaimsMatch(g) && KeyOf(record) in g.claims
    ensures 1 <= g.claims[KeyOf(record)].recordId <= |g.records|
    ensures KeyOf(At(g, g.claims[KeyOf(record)].recordId - 1)) == KeyOf(record)
  {
    assert ClaimNames(g, KeyOf(record));
  }

  /** An accepted result is a record step (0) recognised, under its row's id, or one the batch has just stored. */
  lemma AcceptedIsKnownOrStored(limits: Limits, g: Group, request: SubmitRequest, now: Time, i: nat)
    requires var submitted := Submit(limits, Some(g), request, now); Announces(request.records, submitted.results, i)
    ensures var submitted := Submit(limits, Some(g), request, now);
            var outcomes := ProbeBatch(g.claims, request.records);
            || (outcomes[i].Identical? && submitted.results[i].recordId == outcomes[i].recordId
                && (submitted.group == Some(g) || submitted.group == Some(CommitBatch(limits, g, g.currentEpoch, request.keys, request.records, outcomes, now))))
            || (outcomes[i] == Absent
                && submitted == Submitted(Some(CommitBatch(limits, g, g.currentEpoch, request.keys, request.records, outcomes, now)),
                                          CommittedResults(limits, StateOf(g), request.keys, request.records, outcomes, g.nextRecordId)))
  {
    hide CommitBatch, GateFrom, AppliedFor, WinnerFor;
  }

  /**
   Of every answer a submission can get, whole, refused, settled by the probe or from a closed group:
   what it announces of a record is true of the log exactly when the record was not stored before, or
   the submission names the epoch of the row it was stored in.
   */
  lemma AnnouncedTrueExactly(limits: Limits, g: Group, request: SubmitRequest, now: Time, i: nat)
    requires GroupInv(g)
    requires Announces(request.records, Submit(limits, Some(g), request, now).results, i)
    ensures var submitted := Submit(limits, Some(g), request, now);
            var record := request.records[i];
            && submitted.group.Some?
            && (Truthful(submitted.group.value, Announcement(request.records, submitted.results, i)) <==>
                  || KeyOf(record) !in g.claims
                  || (1 <= g.claims[KeyOf(record)].recordId <= |g.records|
                      && At(g, g.claims[KeyOf(record)].recordId - 1).epoch == record.epoch))
  {
    hide Submit, CommitBatch, GroupInv;
    ShapeParts(g);
    var outcomes := ProbeBatch(g.claims, request.records);
    AcceptedIsKnownOrStored(limits, g, request, now, i);
    if outcomes[i] == Absent {
      StoredIsAnnouncedTrue(limits, g, request.keys, request.records, outcomes, now, i);
    } else {
      ClaimNamesItsRow(g, request.records[i]);
      CommitKeepsRows(limits, g, request.keys, request.records, outcomes, now);
    }
  }

  lemma ShapeParts(g: Group)
    requires GroupInv(g)
    ensures g.nextRecordId == |g.records| + 1 && ClaimsMatch(g)
  {
  }

  lemma {:induction false} CommitKeepsRows(limits: Limits, g: Group, keys: Option<EpochKeyDelivery>, batch: seq<Record>, outcomes: seq<Probe>, now: Time)
    requires |outcomes| == |batch|
    ensures g.records <= CommitBatch(limits, g, g.currentEpoch, keys, batch, outcomes, now).records
  {
    StoreFromAllocates(limits, Allocate(g, CountAbsent(outcomes, |batch|)), g.currentEpoch, keys, batch, outcomes, 0, g.nextRecordId, now);
  }

  /** To a group that does not exist nothing is announced. */
  lemma NothingAnnouncedOfNoGroup(limits: Limits, request: SubmitRequest, now: Time, i: nat)
    ensures !Announces(request.records, Submit(limits, None, request, now).results, i)
  {
    if request.records != [] {
      var outcomes := ProbeBatch(map[], request.records);
      assert outcomes[0] == Absent;
    }
  }

  // ---- a retry under another epoch ----

  /**
   Any stored record, sent again under any epoch at all, is accepted under its own id with nothing
   written, open group or closed, and announced at the epoch the retry names.
   */
  lemma RetryUnderAnotherEpoch(limits: Limits, g: Group, k: nat, epoch: nat, keys: Option<EpochKeyDelivery>, now: Time)
    requires GroupInv(g) && k < |g.records|
    ensures var retry := At(g, k).(epoch := epoch);
            var submitted := Submit(limits, Some(g), SubmitRequest([retry], keys), now);
            && submitted.group == Some(g)
            && Announced([retry], submitted.results) == [PublishedRecord(k + 1, epoch)]
            && (Truthful(g, PublishedRecord(k + 1, epoch)) <==> epoch == At(g, k).epoch)
  {
    hide GroupInv, Submit;
    var retry := At(g, k).(epoch := epoch);
    RowIsClaimed(g, k);
    SettledAlone(limits, g, retry, k + 1, keys, now);
    AnnouncedAlone(retry, Submit(limits, Some(g), SubmitRequest([retry], keys), now).results);
  }

  lemma SettledAlone(limits: Limits, g: Group, record: Record, id: nat, keys: Option<EpochKeyDelivery>, now: Time)
    requires ClaimedAs(g, record, id)
    ensures var submitted := Submit(limits, Some(g), SubmitRequest([record], keys), now);
            && submitted.group == Some(g) && |submitted.results| == 1
            && Accepted(submitted.results[0].reason) && submitted.results[0].recordId == id
  {
    hide GateFrom, CommitBatch, CommittedResults, WinnerFor;
    assert ProbeBatch(g.claims, [record]) == [Identical(id)];
  }

  lemma AnnouncedAlone(record: Record, results: seq<SubmitResult>)
    requires |results| == 1 && Accepted(results[0].reason) && results[0].recordId != 0
    ensures Announced([record], results) == [PublishedRecord(results[0].recordId, record.epoch)]
  {
    assert AnnouncedTo([record], results, 0) == [];
    assert Announces([record], results, 0);
  }

  lemma RowIsClaimed(g: Group, k: nat)
    requires GroupInv(g) && k < |g.records|
    ensures ClaimedAs(g, At(g, k), k + 1)
  {
  }

  /**
   So a retry that names an epoch within a subscriber's ceiling, of a row above it, raises what the
   subscriber is owed past the high water a fetch at its ceiling answers.
   */
  lemma RetryRaisesPastTheCeiling(g: Group, k: nat, epoch: nat, sub: Sub)
    requires GroupInv(g) && k < |g.records| && epoch <= sub.readEpoch < At(g, k).epoch
    ensures k + 1 <= Raised(sub, [PublishedRecord(k + 1, epoch)]).owed
    ensures HighWater(g.records, sub.readEpoch) < k + 1
  {
    hide GroupInv, HighWater;
    var published := [PublishedRecord(k + 1, epoch)];
    assert published[0].epoch <= sub.readEpoch;
    GroupIsOrdered(g);
    CeilingCutsAPrefix(g.records, sub.readEpoch);
    assert g.records[k].record == At(g, k);
  }

  // ---- high waters ----

  /** A log that only grows never lowers a reader's high water. */
  lemma HighWaterGrows(rows: seq<RecordRow>, later: seq<RecordRow>, ceiling: nat)
    requires Ordered(later) && rows <= later
    ensures HighWater(rows, ceiling) <= HighWater(later, ceiling)
  {
    hide HighWater;
    CeilingCutsAPrefix(rows, ceiling);
    CeilingCutsAPrefix(later, ceiling);
    var top := HighWater(rows, ceiling);
    if 0 < top { assert rows[top - 1].record.epoch <= ceiling && later[top - 1] == rows[top - 1]; }
  }
}
