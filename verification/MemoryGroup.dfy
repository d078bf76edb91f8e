/**
 The in-memory group: the rows as mutable fields, and the transaction as the loops that read and
 write them, each proved to do exactly what the pure steps of GroupTransaction say.
 */
module MemoryGroup {
  import opened Common
  import opened Records
  import opened GroupTransaction
  import opened GroupLog
  import opened GroupBatch
  import opened GroupFetch
  import opened GroupTheorems

  datatype SubmitAnswer = SubmitError(error: StoreError) | SubmitResults(results: seq<SubmitResult>)

  class Rows {
    var currentEpoch: nat
    var nextRecordId: nat
    var policy: Policy
    var policyVersion: nat
    var epochComplete: bool
    var contextHash: Option<Bytes>
    var closed: bool
    var records: seq<RecordRow>
    var claims: map<ClaimKey, ClaimRow>
    var commits: map<nat, CommitRow>
    var senders: map<Bytes, SenderRow>
    var epochs: map<nat, EpochRow>
    var recovery: map<Bytes, RecoveryRow>

    /** The rows as one value. */
    ghost function State(): Group
      reads this
    {
      Group(currentEpoch, nextRecordId, policy, policyVersion, epochComplete, contextHash, closed,
            records, claims, commits, senders, epochs, recovery)
    }

    /** The group a founding commit opens. */
    constructor (limits: Limits, request: CreateRequest, now: Time)
      requires FoundingCommit(request)
      ensures State() == Founded(limits, request, now) && GroupInv(State())
    {
      var opening := OpeningOf(request.initialCommit, request.keys).value;
      var record := request.initialCommit.(recordId := FIRST_RECORD_ID, pruneAfter := None);
      var applied := Apply(limits, opening);
      currentEpoch, nextRecordId := 1, FIRST_RECORD_ID + 1;
      policy, policyVersion, epochComplete := applied.policy, 1, false;
      contextHash, closed := opening.contextHash, false;
      records := [RecordRow(record, PruneAfter(now, record.retentionClass, applied.policy), now, 1)];
      claims := map[KeyOf(record) := ClaimOf(record, now)];
      commits := map[0 := CommitRow(0, record.recordId, record)];
      senders := map[record.sender := SenderRow(record.streamIndex, 1, RecordBytes(record), now)];
      epochs := map[0 := EpochRow(0, Some(request.bootstrapWriteKey), None, 0, 0, 0, None, now, Some(now)),
                    1 := OpenedRow(opening, 1, record.recordId, now)];
      recovery := NextRecovery(map[], record, now);
      new;
      FoundedInv(limits, request, now);
    }

    method Probe(batch: seq<Record>) returns (outcomes: seq<Probe>)
      ensures outcomes == ProbeBatch(claims, batch)
    {
      outcomes := [];
      for i := 0 to |batch|
        invariant |outcomes| == i
        invariant forall j :: 0 <= j < i ==> outcomes[j] == ProbeRecord(claims, batch[j])
      {
        var key := ClaimKey(batch[i].sender, batch[i].streamIndex);
        var outcome := Absent;
        if key in claims {
          var claim := claims[key];
          if claim.bodyHash == batch[i].bodyHash && claim.headHash == batch[i].headHash {
            outcome := Identical(claim.recordId);
          } else {
            outcome := Differs;
          }
        }
        outcomes := outcomes + [outcome];
      }
    }

    /** Every unsettled record through the gates before a single id is allocated. */
    method GateAll(state: GroupState, batch: seq<Record>, outcomes: seq<Probe>, keys: Option<EpochKeyDelivery>)
      returns (r: GateResult)
      requires |outcomes| == |batch|
      ensures r == GateFrom(State(), state, batch, outcomes, keys, 0, map[], map[])
    {
      hide GateFrom, Gate;
      var highWater: map<Bytes, nat>, pinned: map<Bytes, Bytes> := map[], map[];
      var next := 0;
      while next < |batch|
        invariant 0 <= next <= |batch|
        invariant GateFrom(State(), state, batch, outcomes, keys, 0, map[], map[])
               == GateFrom(State(), state, batch, outcomes, keys, next, highWater, pinned)
      {
        GateFromUnfolds(State(), state, batch, outcomes, keys, next, highWater, pinned);
        if outcomes[next] == Absent {
          var reason := GateOne(state, batch[next], keys, highWater, pinned);
          if reason != ReasonOk {
            return Refused(next, reason);
          }
          highWater := highWater[batch[next].sender := batch[next].streamIndex];
          var tag := RecoveryTagOf(batch[next]);
          if tag.Some? && tag.value.handle !in pinned {
            pinned := pinned[tag.value.handle := tag.value.verifyPub];
          }
        }
        next := next + 1;
      }
      GateFromEnds(State(), state, batch, outcomes, keys, highWater, pinned);
      r := Passed;
    }

    /** The gates for one record, in order; the winner check stands in front of the epoch check. */
    method GateOne(state: GroupState, record: Record, keys: Option<EpochKeyDelivery>,
                   highWater: map<Bytes, nat>, pinned: map<Bytes, Bytes>) returns (reason: Reason)
      ensures reason == Gate(State(), state, record, keys, highWater, pinned)
    {
      hide WellFormedEpochAttachment;
      if record.isCommit && record.epoch in commits { return ReasonCommitLost; }
      if record.epoch != state.currentEpoch { return ReasonEpochStale; }
      if !state.epochComplete && !ExemptFromEpochComplete(record) { return ReasonEpochIncomplete; }
      if record.isCommit != IsEpochAttachmentKind(KindOf(record)) { return ReasonRejected; }
      if record.isCommit && !WellFormedEpochAttachment(record, state.currentEpoch + 1, keys) { return ReasonRejected; }

      var last: nat, seen := 0, false;
      if record.sender in highWater {
        last, seen := highWater[record.sender], true;
      } else if record.sender in senders {
        last, seen := senders[record.sender].lastStreamIndex, true;
      }
      if seen && record.streamIndex <= last { return ReasonStreamIndexRegressed; }

      var tag := RecoveryTagOf(record);
      if tag.Some? {
        var known: Bytes, found := [], false;
        if tag.value.handle in pinned {
          known, found := pinned[tag.value.handle], true;
        } else if tag.value.handle in recovery {
          known, found := recovery[tag.value.handle].verifyPub, true;
        }
        if found && known != tag.value.verifyPub { return ReasonRejected; }
      }
      reason := ReasonOk;
    }

    /** The old write keys go one row at a time, in whatever order the rows come up. */
    method DropWriteKeys(superseded: nat)
      modifies `epochs
      ensures epochs == map e | e in old(epochs) ::
                if e < superseded then old(epochs)[e].(writeKey := None) else old(epochs)[e]
    {
      var todo := epochs.Keys;
      while todo != {}
        invariant epochs.Keys == old(epochs.Keys) && todo <= epochs.Keys
        invariant forall e :: e in epochs ==>
          epochs[e] == if e < superseded && e !in todo then old(epochs)[e].(writeKey := None) else old(epochs)[e]
        decreases todo
      {
        var e :| e in todo;
        if e < superseded && epochs[e].writeKey.Some? {
          epochs := epochs[e := epochs[e].(writeKey := None)];
        }
        todo := todo - {e};
      }
    }

    /** The new epoch's row, its predecessor stamped, and everything older without its write key. */
    method TurnEpoch(epoch: nat, row: EpochRow, now: Time)
      modifies `epochs
      ensures epochs == RetireKeys(old(epochs)[epoch + 1 := row], epoch, now)
    {
      epochs := epochs[epoch + 1 := row];
      if epoch in epochs && epochs[epoch].writeKey.Some? {
        epochs := epochs[epoch := epochs[epoch].(retireTime := Some(now))];
      }
      DropWriteKeys(epoch);
    }

    /** The group's own row moves to the next epoch, under the policy that epoch opens with. */
    method TurnPolicy(limits: Limits, epoch: nat, opening: EpochOpening)
      modifies `currentEpoch, `epochComplete, `policy, `contextHash, `policyVersion
      ensures currentEpoch == epoch + 1 && !epochComplete && policy == Apply(limits, opening).policy
      ensures contextHash == opening.contextHash && policyVersion == old(policyVersion) + 1
    {
      hide Apply;
      currentEpoch := epoch + 1;
      epochComplete := false;
      policy := Apply(limits, opening).policy;
      contextHash := opening.contextHash;
      policyVersion := policyVersion + 1;
    }

    /** Step (6): the next epoch opens, the old key retires, the policy moves. */
    method OpenNext(limits: Limits, epoch: nat, opening: EpochOpening, record: Record, now: Time)
      modifies this
      ensures State() == OpenEpoch(limits, old(State()), epoch, opening, record, now)
    {
      hide Apply, RetireKeys, OpenedRow;
      TurnEpoch(epoch, OpenedRow(opening, epoch + 1, record.recordId, now), now);
      TurnPolicy(limits, epoch, opening);
      commits := commits[record.epoch := CommitRow(record.epoch, record.recordId, record)];
    }

    /** Steps (5a), (6c) and (7): the claim, the row, the pin and the sender's row. */
    method Append(record: Record, now: Time)
      modifies this
      ensures State() == AppendRow(old(State()), record, now)
    {
      hide PruneAfter;
      claims := claims[KeyOf(record) := ClaimOf(record, now)];
      records := records + [RecordRow(record, PruneAfter(now, record.retentionClass, policy), now, policyVersion)];
      var tag := RecoveryTagOf(record);
      if tag.Some? && tag.value.handle !in recovery {
        recovery := recovery[tag.value.handle := RecoveryRow(tag.value.verifyPub, tag.value.algId, now)];
      }
      senders := senders[record.sender := NextSenderRow(senders, record, now)];
    }

    /** Step (6b): a marker naming the current epoch with the announced count opens the group. */
    method Mark(record: Record)
      modifies this
      ensures State() == NoteMarker(old(State()), record)
    {
      var marker := EpochCompleteTagOf(record);
      if marker.Some? && currentEpoch in epochs && marker.value.epoch == currentEpoch
         && marker.value.wrapCount == epochs[currentEpoch].expectedWraps {
        epochComplete := true;
      }
    }

    /** One accepted record. */
    method StoreOne(limits: Limits, epoch: nat, keys: Option<EpochKeyDelivery>, submitted: Record, recordId: nat, now: Time)
      modifies this
      ensures State() == StoreRecord(limits, old(State()), epoch, keys, submitted, recordId, now)
    {
      hide OpenEpoch, OpeningOf, AppendRow, NoteMarker, State;
      var record := submitted.(recordId := recordId, pruneAfter := None);
      if record.isCommit {
        var opening := OpeningOf(submitted, keys);
        if opening.Some? {
          OpenNext(limits, epoch, opening.value, record, now);
        }
      }
      Mark(record);
      Append(record, now);
    }

    /** Exactly as many ids as there are unsettled records, allocated together, then the rows under them. */
    method WriteRows(limits: Limits, state: GroupState, keys: Option<EpochKeyDelivery>, batch: seq<Record>,
                     outcomes: seq<Probe>, now: Time) returns (results: seq<SubmitResult>)
      requires |outcomes| == |batch|
      modifies this
      ensures State() == CommitBatch(limits, old(State()), state.currentEpoch, keys, batch, outcomes, now)
      ensures results == CommittedResults(limits, state, keys, batch, outcomes, old(nextRecordId))
    {
      hide StoreFrom, StoreRecord, CommittedResult, AppliedFor;
      var first := nextRecordId;
      var accepted := 0;
      for i := 0 to |batch|
        invariant accepted == CountAbsent(outcomes, i)
      {
        if outcomes[i] == Absent { accepted := accepted + 1; }
      }
      nextRecordId := nextRecordId + accepted;
      ghost var bumped := State();
      assert bumped == Allocate(old(State()), accepted);
      results := [];
      var index := 0;
      var i := 0;
      while i < |batch|
        invariant 0 <= i <= |batch| && index == CountAbsent(outcomes, i)
        invariant StoreFrom(limits, bumped, state.currentEpoch, keys, batch, outcomes, 0, first, now)
               == StoreFrom(limits, State(), state.currentEpoch, keys, batch, outcomes, i, first + index, now)
        invariant |results| == i
        invariant forall j :: 0 <= j < i ==> results[j] == CommittedResult(limits, state, keys, batch, outcomes, first, j)
      {
        StoreFromUnfolds(limits, State(), state.currentEpoch, keys, batch, outcomes, i, first + index, now);
        var result := AnswerOne(limits, state, keys, batch, outcomes, first, i, index);
        if outcomes[i] == Absent {
          StoreOne(limits, state.currentEpoch, keys, batch[i], first + index, now);
          index := index + 1;
        }
        results := results + [result];
        i := i + 1;
      }
      StoreFromEnds(limits, State(), state.currentEpoch, keys, batch, outcomes, first + index, now);
    }

    /** The compare-and-swap over every unsettled commit, then the rows: nothing is written once one has lost. */
    method Commit(limits: Limits, state: GroupState, keys: Option<EpochKeyDelivery>, batch: seq<Record>,
                  outcomes: seq<Probe>, now: Time) returns (results: seq<SubmitResult>)
      requires |outcomes| == |batch|
      modifies this
      ensures var lost := FirstCasLost(old(State()), batch, outcomes, 0);
              if lost.Some? then
                && State() == old(State())
                && results == RefuseBatch(Some(State()), batch, outcomes, state.currentEpoch, lost.value, ReasonCommitLost)
              else
                && State() == CommitBatch(limits, old(State()), state.currentEpoch, keys, batch, outcomes, now)
                && results == CommittedResults(limits, state, keys, batch, outcomes, old(nextRecordId))
    {
      hide CommitBatch, CommittedResults, RefuseBatch;
      for i := 0 to |batch|
        invariant State() == old(State())
        invariant FirstCasLost(State(), batch, outcomes, 0) == FirstCasLost(State(), batch, outcomes, i)
      {
        if outcomes[i] == Absent && batch[i].isCommit && batch[i].epoch in commits {
          results := Refuse(batch, outcomes, state.currentEpoch, i, ReasonCommitLost);
          return;
        }
      }
      results := WriteRows(limits, state, keys, batch, outcomes, now);
    }

    method AnswerOne(limits: Limits, state: GroupState, keys: Option<EpochKeyDelivery>, batch: seq<Record>,
                     outcomes: seq<Probe>, first: nat, i: nat, index: nat) returns (result: SubmitResult)
      requires |outcomes| == |batch| && i < |batch| && index == CountAbsent(outcomes, i)
      ensures result == CommittedResult(limits, state, keys, batch, outcomes, first, i)
    {
      if outcomes[i] == Absent {
        var applied := AppliedFor(limits, batch[i], keys);
        result := SubmitResult(AcceptanceReason(applied), first + index,
                               if batch[i].isCommit then state.currentEpoch + 1 else state.currentEpoch, None, applied);
      } else {
        result := SubmitResult(ReasonOk, if outcomes[i].Identical? then outcomes[i].recordId else 0,
                               state.currentEpoch, None, None);
      }
    }

    /** A batch that wrote nothing: the offender's own reason, and the non-specific one on its neighbours. */
    method Refuse(batch: seq<Record>, outcomes: seq<Probe>, known: nat, offender: nat, reason: Reason)
      returns (results: seq<SubmitResult>)
      requires |outcomes| == |batch|
      ensures results == RefuseBatch(Some(State()), batch, outcomes, known, offender, reason)
    {
      results := [];
      for i := 0 to |batch|
        invariant |results| == i
        invariant forall j :: 0 <= j < i ==>
          results[j] == FilledResult(Some(State()), batch[j], outcomes[j],
                                     RefusedReason(outcomes[j], j == offender, reason), known)
      {
        var answer := ReasonRejected;
        if outcomes[i].Identical? {
          answer := ReasonOk;
        } else if i == offender {
          answer := reason;
        }
        var result := Fill(batch[i], outcomes[i], answer, known);
        results := results + [result];
      }
    }

    /** The current epoch on every answer and the winner on every refused commit, unless the group has closed. */
    method Fill(record: Record, outcome: Probe, reason: Reason, known: nat) returns (result: SubmitResult)
      ensures result == FilledResult(Some(State()), record, outcome, reason, known)
    {
      var id := if outcome.Identical? && Accepted(reason) then outcome.recordId else 0;
      result := SubmitResult(reason, id, known, None, None);
      if !closed {
        if known == 0 { result := result.(currentEpoch := currentEpoch); }
        if record.isCommit && !Accepted(reason) && record.epoch in commits {
          result := result.(winningCommit := Some(commits[record.epoch].record));
        }
      }
    }

    method Settle(batch: seq<Record>, outcomes: seq<Probe>) returns (results: seq<SubmitResult>)
      requires |outcomes| == |batch|
      ensures results == AllSettled(Some(State()), batch, outcomes)
    {
      results := [];
      for i := 0 to |batch|
        invariant |results| == i
        invariant forall j :: 0 <= j < i ==> results[j] == FilledResult(Some(State()), batch[j], outcomes[j], ReasonOk, 0)
      {
        var result := Fill(batch[i], outcomes[i], ReasonOk, 0);
        results := results + [result];
      }
    }

    /** Steps (1) to (7), under the row lock: gate every record, then write them all or none. */
    method UnderLock(limits: Limits, request: SubmitRequest, outcomes: seq<Probe>, now: Time)
      returns (results: seq<SubmitResult>)
      requires GroupInv(State()) && |outcomes| == |request.records| && CommitAlone(request.records)
      modifies this
      ensures GroupInv(State()) && Extends(old(State()), State())
      ensures Submitted(Some(State()), results) == Transact(limits, old(State()), request, outcomes, now)
    {
      hide GroupInv, Extends, GateFrom, CommitBatch, CommittedResults, RefuseBatch;
      ExtendsItself(State());
      var batch := request.records;
      var state := GroupState(currentEpoch, nextRecordId, policy, policyVersion, epochComplete, contextHash);
      var gated := GateAll(state, batch, outcomes, request.keys);
      if gated.Refused? {
        results := Refuse(batch, outcomes, state.currentEpoch, gated.offender, gated.reason);
      } else {
        CommitBatchKeepsInv(limits, State(), request.keys, batch, outcomes, now);
        CommitBatchExtends(limits, State(), request.keys, batch, outcomes, now);
        GatedHasNotLost(State(), batch, outcomes, request.keys);
        results := Commit(limits, state, request.keys, batch, outcomes, now);
      }
    }

    /** Step (0), and what it leaves to the steps under the lock. */
    method Answer(limits: Limits, request: SubmitRequest, now: Time) returns (results: seq<SubmitResult>)
      requires GroupInv(State()) && CommitAlone(request.records)
      modifies this
      ensures GroupInv(State()) && Extends(old(State()), State())
      ensures Submitted(Some(State()), results) == GroupTransaction.Submit(limits, Some(old(State())), request, now)
    {
      hide GroupInv, Extends, RefuseBatch, AllSettled, CommitAlone, Transact;
      ExtendsItself(State());
      var outcomes := Probe(request.records);
      if SomeDiffer(outcomes) {
        results := Refuse(request.records, outcomes, 0, FirstDiffering(outcomes, 0), ReasonStreamIndexReused);
      } else if AllIdentical(outcomes) {
        results := Settle(request.records, outcomes);
      } else if closed {
        results := RefuseUnavailable(outcomes);
      } else {
        results := UnderLock(limits, request, outcomes, now);
      }
    }

    /** The whole submission. Every answer but a commit leaves every row as it was. */
    method Submit(limits: Limits, request: SubmitRequest, now: Time) returns (answer: SubmitAnswer)
      requires GroupInv(State())
      modifies this
      ensures GroupInv(State()) && Extends(old(State()), State())
      ensures ValidateBatch(request).Some? ==>
                answer == SubmitError(ValidateBatch(request).value) && State() == old(State())
      ensures ValidateBatch(request).None? ==>
                (var submitted := GroupTransaction.Submit(limits, Some(old(State())), request, now);
                 answer == SubmitResults(submitted.results) && Some(State()) == submitted.group)
    {
      hide GroupInv, Extends, ValidateBatch, CommitAlone, GroupTransaction.Submit;
      ExtendsItself(State());
      var shape := ValidateBatch(request);
      if shape.Some? { return SubmitError(shape.value); }
      ShapedBatchIsAlone(request);
      var results := Answer(limits, request, now);
      return SubmitResults(results);
    }

    method CloseGroup() returns (ok: bool)
      modifies this
      ensures ok == !old(closed) && State() == Close(old(State()))
    {
      ok := !closed;
      closed := true;
    }

    /** Two passes over the log: the reader's high water, and the page it asked for. */
    method FetchPage(request: FetchRequest) returns (page: Option<FetchResult>)
      ensures page == Fetch(State(), request)
      ensures page.None? <==> closed
      ensures page.Some? ==> exists at :: Pages(records, request, page.value, at)
      ensures page.Some? ==> IsHighWater(records, request.readEpoch, page.value.highWater)
    {
      hide Pages, IsHighWater;
      if closed { return None; }
      var top := 0;
      for i := 0 to |records|
        invariant top == HighWater(records[..i], request.readEpoch)
      {
        assert records[..i + 1][..i] == records[..i];
        if records[i].record.epoch <= request.readEpoch && top < records[i].record.recordId {
          top := records[i].record.recordId;
        }
      }
      assert records[..|records|] == records;
      var rows, complete := SelectRows(request);
      page := Some(FetchResult(ReadRows(rows, request.headsOnly),
                               if |rows| == 0 then request.since else rows[|rows| - 1].record.recordId, top, complete));
      var at := PageIsExactly(records, request);
    }

    /** The page's rows, read until the limit is met with another row still to come. */
    method SelectRows(request: FetchRequest) returns (rows: seq<RecordRow>, complete: bool)
      ensures (rows, !complete) == Truncated(Selected(records, request), request.limit)
    {
      hide Wanted;
      rows, complete := [], true;
      for i := 0 to |records|
        invariant complete && rows == Selected(records[..i], request)
        invariant request.limit == 0 || |rows| <= request.limit
      {
        assert records[..i + 1][..i] == records[..i];
        if Wanted(request, records[i]) {
          if request.limit != 0 && |rows| == request.limit {
            complete := false;
            SelectedPrefix(records, request, i + 1);
            assert rows + [records[i]] <= Selected(records, request);
            assert Selected(records, request)[..request.limit] == rows;
            return;
          }
          rows := rows + [records[i]];
        }
      }
      assert records[..|records|] == records;
    }

    method EpochKeysAt(epoch: nat) returns (keys: Option<EpochKeys>)
      ensures keys == KeysFor(State(), epoch)
    {
      if closed || epoch !in epochs { return None; }
      var row := epochs[epoch];
      if row.writeKey.None? && row.readKey.None? { return None; }
      keys := Some(EpochKeys(row.epoch, row.writeKey, row.readKey, row.readKeyInstall, row.algId,
                             row.openedByRecord, row.acceptTime, row.retireTime));
    }
  }

  datatype CreateAnswer = CreateError(error: StoreError) | Created(reason: Reason, currentEpoch: nat, recordId: nat, applied: Option<Applied>)

  /** The groups by id. */
  class Store {
    const limits: Limits
    var groups: map<Bytes, Rows>

    /** Every group has the log's shape, and no two ids share one group's rows. */
    ghost predicate Valid()
      reads this, groups.Values
    {
      && (forall id :: id in groups ==> GroupInv(groups[id].State()))
      && (forall a, b :: a in groups && b in groups && groups[a] == groups[b] ==> a == b)
    }

    /** The group under an id, if there is one. */
    ghost function StateAt(id: Bytes): Option<Group>
      reads this, groups.Values
    {
      if id in groups then Some(groups[id].State()) else None
    }

    constructor (limits: Limits)
      ensures Valid() && groups == map[] && this.limits == limits
    {
      this.limits := limits;
      groups := map[];
    }

    /** A founding commit opens a fresh id once; every later attempt at it, and every other commit, is refused. */
    method CreateGroup(groupId: Bytes, bootstrapWriteKey: Bytes, commit: Option<Record>, keys: Option<EpochKeyDelivery>, now: Time)
      returns (answer: CreateAnswer)
      requires Valid()
      modifies `groups
      ensures Valid()
      ensures forall id :: id in old(groups) ==> id in groups && groups[id] == old(groups)[id]
      ensures answer.Created? && Accepted(answer.reason) <==>
                && |groupId| == GROUP_ID_BYTES && |bootstrapWriteKey| == EPOCH_KEY_BYTES
                && commit.Some? && ValidateRecord(commit.value).None?
                && FoundingCommit(CreateRequest(commit.value, bootstrapWriteKey, keys)) && groupId !in old(groups)
      ensures answer.Created? && Accepted(answer.reason) ==>
                && groups.Keys == old(groups.Keys) + {groupId} && fresh(groups[groupId])
                && groups[groupId].State() == Founded(limits, CreateRequest(commit.value, bootstrapWriteKey, keys), now)
                && answer.currentEpoch == 1 && answer.recordId == 1
                && answer.applied.Some? && answer.applied.value.policy == groups[groupId].State().policy
                && (answer.reason == ReasonRetentionClamped <==> Clamped(answer.applied.value))
      ensures |groupId| == GROUP_ID_BYTES && |bootstrapWriteKey| == EPOCH_KEY_BYTES && commit.None? ==>
                answer == CreateError(ErrEmptyBatch)
      ensures |groupId| != GROUP_ID_BYTES || |bootstrapWriteKey| != EPOCH_KEY_BYTES ==> answer == CreateError(ErrIdentifierShape)
      ensures !(answer.Created? && Accepted(answer.reason)) ==> groups == old(groups)
    {
      hide GroupInv, Founded, WellFormedEpochAttachment, ValidateRecord, AppliedFor;
      if |groupId| != GROUP_ID_BYTES || |bootstrapWriteKey| != EPOCH_KEY_BYTES {
        return CreateError(ErrIdentifierShape);
      }
      if commit.None? {
        return CreateError(ErrEmptyBatch);
      }
      var request := CreateRequest(commit.value, bootstrapWriteKey, keys);
      var shape := ValidateRecord(commit.value);
      if shape.Some? { return CreateError(shape.value); }
      if !FoundingCommit(request) || groupId in groups {
        return Created(ReasonRejected, 0, 0, None);
      }
      var applied := AppliedFor(limits, request.initialCommit, request.keys);
      FoundedPolicy(limits, request, now);
      var rows := new Rows(limits, request, now);
      groups := groups[groupId := rows];
      answer := Created(AcceptanceReason(applied), 1, FIRST_RECORD_ID, applied);
    }

    /** A submission changes its own group's rows and no other's; one to an unknown group is refused whole. */
    method Submit(groupId: Bytes, request: SubmitRequest, now: Time) returns (answer: SubmitAnswer)
      requires Valid()
      modifies if groupId in groups then {groups[groupId]} else {}
      ensures Valid()
      ensures forall id :: id != groupId ==> StateAt(id) == old(StateAt(id))
      ensures |groupId| == GROUP_ID_BYTES && ValidateBatch(request).None? ==>
                var submitted := GroupTransaction.Submit(limits, old(StateAt(groupId)), request, now);
                answer == SubmitResults(submitted.results) && submitted.group == StateAt(groupId)
      ensures |groupId| == GROUP_ID_BYTES && ValidateBatch(request).Some? ==>
                answer == SubmitError(ValidateBatch(request).value) && StateAt(groupId) == old(StateAt(groupId))
      ensures |groupId| != GROUP_ID_BYTES ==> answer == SubmitError(ErrIdentifierShape) && StateAt(groupId) == old(StateAt(groupId))
    {
      hide GroupInv, Extends, ValidateBatch, Transact, RefuseBatch, AllSettled;
      if |groupId| != GROUP_ID_BYTES { return SubmitError(ErrIdentifierShape); }
      if groupId in groups {
        answer := groups[groupId].Submit(limits, request, now);
      } else {
        var shape := ValidateBatch(request);
        if shape.Some? { return SubmitError(shape.value); }
        ShapedBatchIsNotEmpty(request);
        var outcomes := ProbeBatch(map[], request.records);
        answer := SubmitResults(RefuseUnavailable(outcomes));
      }
    }
  }

  lemma FoundedPolicy(limits: Limits, request: CreateRequest, now: Time)
    requires FoundingCommit(request)
    ensures AppliedFor(limits, request.initialCommit, request.keys).Some?
    ensures AppliedFor(limits, request.initialCommit, request.keys).value.policy == Founded(limits, request, now).policy
  {
  }

  // ---- one turn of each recursion the loops follow ----

  lemma {:induction false} GateFromUnfolds(g: Group, state: GroupState, batch: seq<Record>, outcomes: seq<Probe>,
                        keys: Option<EpochKeyDelivery>, next: nat, highWater: map<Bytes, nat>, pinned: map<Bytes, Bytes>)
    requires |outcomes| == |batch| && next < |batch|
    ensures var reason := Gate(g, state, batch[next], keys, highWater, pinned);
            GateFrom(g, state, batch, outcomes, keys, next, highWater, pinned) ==
              if outcomes[next] != Absent then GateFrom(g, state, batch, outcomes, keys, next + 1, highWater, pinned)
              else if reason != ReasonOk then Refused(next, reason)
              else GateFrom(g, state, batch, outcomes, keys, next + 1,
                            NoteHighWater(highWater, batch[next]), NotePin(pinned, batch[next]))
  {
  }

  lemma {:induction false} GateFromEnds(g: Group, state: GroupState, batch: seq<Record>, outcomes: seq<Probe>,
                     keys: Option<EpochKeyDelivery>, highWater: map<Bytes, nat>, pinned: map<Bytes, Bytes>)
    requires |outcomes| == |batch|
    ensures GateFrom(g, state, batch, outcomes, keys, |batch|, highWater, pinned) == Passed
  {
  }

  lemma {:induction false} StoreFromUnfolds(limits: Limits, g: Group, epoch: nat, keys: Option<EpochKeyDelivery>, batch: seq<Record>,
                         outcomes: seq<Probe>, next: nat, recordId: nat, now: Time)
    requires |outcomes| == |batch| && next < |batch|
    ensures StoreFrom(limits, g, epoch, keys, batch, outcomes, next, recordId, now) ==
              if outcomes[next] != Absent then StoreFrom(limits, g, epoch, keys, batch, outcomes, next + 1, recordId, now)
              else StoreFrom(limits, StoreRecord(limits, g, epoch, keys, batch[next], recordId, now), epoch, keys,
                             batch, outcomes, next + 1, recordId + 1, now)
  {
  }

  lemma {:induction false} StoreFromEnds(limits: Limits, g: Group, epoch: nat, keys: Option<EpochKeyDelivery>, batch: seq<Record>,
                      outcomes: seq<Probe>, recordId: nat, now: Time)
    requires |outcomes| == |batch|
    ensures StoreFrom(limits, g, epoch, keys, batch, outcomes, |batch|, recordId, now) == g
  {
  }

  lemma ShapedBatchIsAlone(request: SubmitRequest)
    requires ValidateBatch(request).None?
    ensures CommitAlone(request.records)
  {
  }

  lemma ShapedBatchIsNotEmpty(request: SubmitRequest)
    requires ValidateBatch(request).None?
    ensures |request.records| != 0
    ensures ProbeBatch(map[], request.records)[0] == Absent
  {
  }

  /** What passed the gates cannot be found lost by the second check in front of the write. */
  lemma {:induction false} GatedHasNotLost(g: Group, batch: seq<Record>, outcomes: seq<Probe>, keys: Option<EpochKeyDelivery>)
    requires |outcomes| == |batch| && CommitAlone(batch) && Gated(g, batch, outcomes, keys)
    ensures FirstCasLost(g, batch, outcomes, 0) == None
  {
    if FirstCasLost(g, batch, outcomes, 0).Some? {
      assert false;
    }
  }

  /** What a prefix of the log selects is where the whole log's selection starts. */
  lemma {:induction false} SelectedPrefix(rows: seq<RecordRow>, request: FetchRequest, n: nat)
    requires n <= |rows|
    ensures Selected(rows[..n], request) <= Selected(rows, request)
    decreases |rows| - n
  {
    if n == |rows| {
      assert rows[..n] == rows;
    } else {
      SelectedPrefix(rows, request, n + 1);
      assert rows[..n + 1][..n] == rows[..n];
    }
  }
}
