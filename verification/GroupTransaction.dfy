/**
 One group's rows and the transaction over them, as pure steps: the idempotency probe, the ordered
 gates, the commit and the answers. MemoryGroup.dfy runs these steps in loops over mutable rows;
 GroupRuns.dfy interleaves them.
 */
module GroupTransaction {
  import opened Common
  import opened Records

  datatype RecordRow = RecordRow(record: Record, pruneAfter: Option<Time>, createTime: Time, policyVersion: nat)

  datatype ClaimKey = ClaimKey(sender: Bytes, streamIndex: nat)

  datatype ClaimRow = ClaimRow(recordId: nat, bodyHash: Bytes, headHash: Bytes, createTime: Time)

  datatype CommitRow = CommitRow(epoch: nat, recordId: nat, record: Record)

  datatype SenderRow = SenderRow(lastStreamIndex: nat, recordCount: nat, byteCount: nat, lastTime: Time)

  datatype EpochRow = EpochRow(
    epoch: nat, writeKey: Option<Bytes>, readKey: Option<Bytes>, algId: nat, expectedWraps: nat,
    openedByRecord: nat, readKeyInstall: Option<Time>, acceptTime: Time, retireTime: Option<Time>)

  datatype RecoveryRow = RecoveryRow(verifyPub: Bytes, algId: nat, firstSeen: Time)

  datatype Group = Group(
    currentEpoch: nat,
    nextRecordId: nat,
    policy: Policy,
    policyVersion: nat,
    epochComplete: bool,
    contextHash: Option<Bytes>,
    closed: bool,
    records: seq<RecordRow>,
    claims: map<ClaimKey, ClaimRow>,
    commits: map<nat, CommitRow>,
    senders: map<Bytes, SenderRow>,
    epochs: map<nat, EpochRow>,
    recovery: map<Bytes, RecoveryRow>)

  /** What a submission reads of the group once it holds the row lock. */
  datatype GroupState = GroupState(
    currentEpoch: nat, nextRecordId: nat, policy: Policy, policyVersion: nat,
    epochComplete: bool, contextHash: Option<Bytes>)

  function StateOf(g: Group): GroupState {
    GroupState(g.currentEpoch, g.nextRecordId, g.policy, g.policyVersion, g.epochComplete, g.contextHash)
  }

  function KeyOf(record: Record): ClaimKey {
    ClaimKey(record.sender, record.streamIndex)
  }

  function ClaimOf(record: Record, now: Time): ClaimRow {
    ClaimRow(record.recordId, record.bodyHash, record.headHash, now)
  }

  // ---- (0) the probe ----

  datatype Probe = Absent | Identical(recordId: nat) | Differs

  predicate SameContent(claim: ClaimRow, record: Record) {
    claim.bodyHash == record.bodyHash && claim.headHash == record.headHash
  }

  function ProbeRecord(claims: map<ClaimKey, ClaimRow>, record: Record): Probe {
    if KeyOf(record) !in claims then Absent
    else if SameContent(claims[KeyOf(record)], record) then Identical(claims[KeyOf(record)].recordId)
    else Differs
  }

  function ProbeBatch(claims: map<ClaimKey, ClaimRow>, batch: seq<Record>): (outcomes: seq<Probe>)
    ensures |outcomes| == |batch|
    ensures forall i :: 0 <= i < |batch| ==> outcomes[i] == ProbeRecord(claims, batch[i])
  {
    seq(|batch|, i requires 0 <= i < |batch| => ProbeRecord(claims, batch[i]))
  }

  // ---- (2), (2b), (3), (6c) the gates ----

  /** A sender's high water as the batch has moved it, or as the group's own row holds it. */
  function LastIndex(senders: map<Bytes, SenderRow>, highWater: map<Bytes, nat>, sender: Bytes): Option<nat> {
    if sender in highWater then Some(highWater[sender])
    else if sender in senders then Some(senders[sender].lastStreamIndex)
    else None
  }

  /** The key a recovery handle is pinned under, by the batch or by the group's own row. */
  function PinOf(recovery: map<Bytes, RecoveryRow>, pinned: map<Bytes, Bytes>, handle: Bytes): Option<Bytes> {
    if handle in pinned then Some(pinned[handle])
    else if handle in recovery then Some(recovery[handle].verifyPub)
    else None
  }

  predicate Regresses(record: Record, last: Option<nat>) {
    last.Some? && record.streamIndex <= last.value
  }

  predicate Rebinds(record: Record, g: Group, pinned: map<Bytes, Bytes>) {
    var tag := RecoveryTagOf(record);
    && tag.Some?
    && PinOf(g.recovery, pinned, tag.value.handle).Some?
    && PinOf(g.recovery, pinned, tag.value.handle).value != tag.value.verifyPub
  }

  function Gate(g: Group, state: GroupState, record: Record, keys: Option<EpochKeyDelivery>,
                highWater: map<Bytes, nat>, pinned: map<Bytes, Bytes>): Reason
  {
    if record.isCommit && record.epoch in g.commits then ReasonCommitLost
    else if record.epoch != state.currentEpoch then ReasonEpochStale
    else if !state.epochComplete && !ExemptFromEpochComplete(record) then ReasonEpochIncomplete
    else if record.isCommit != IsEpochAttachmentKind(KindOf(record)) then ReasonRejected
    else if record.isCommit && !WellFormedEpochAttachment(record, state.currentEpoch + 1, keys) then ReasonRejected
    else if Regresses(record, LastIndex(g.senders, highWater, record.sender)) then ReasonStreamIndexRegressed
    else if Rebinds(record, g, pinned) then ReasonRejected
    else ReasonOk
  }

  function NoteHighWater(highWater: map<Bytes, nat>, record: Record): map<Bytes, nat> {
    highWater[record.sender := record.streamIndex]
  }

  function NotePin(pinned: map<Bytes, Bytes>, record: Record): map<Bytes, Bytes> {
    var tag := RecoveryTagOf(record);
    if tag.Some? && tag.value.handle !in pinned then pinned[tag.value.handle := tag.value.verifyPub] else pinned
  }

  datatype GateResult = Passed | Refused(offender: nat, reason: Reason)

  /** Every unsettled record from `next` on, gated in order; the first refusal decides. */
  function GateFrom(g: Group, state: GroupState, batch: seq<Record>, outcomes: seq<Probe>,
                    keys: Option<EpochKeyDelivery>, next: nat,
                    highWater: map<Bytes, nat>, pinned: map<Bytes, Bytes>): (r: GateResult)
    requires |outcomes| == |batch| && next <= |batch|
    ensures r.Refused? ==> next <= r.offender < |batch| && outcomes[r.offender] == Absent && !Accepted(r.reason)
    decreases |batch| - next
  {
    if next == |batch| then Passed
    else if outcomes[next] != Absent then GateFrom(g, state, batch, outcomes, keys, next + 1, highWater, pinned)
    else
      var reason := Gate(g, state, batch[next], keys, highWater, pinned);
      if reason != ReasonOk then Refused(next, reason)
      else GateFrom(g, state, batch, outcomes, keys, next + 1,
                    NoteHighWater(highWater, batch[next]), NotePin(pinned, batch[next]))
  }

  // ---- (4) to (7) the commit ----

  /** The write keys strictly older than the epoch being superseded go; the superseded one is stamped. */
  function RetireKeys(epochs: map<nat, EpochRow>, superseded: nat, now: Time): (r: map<nat, EpochRow>)
    ensures r.Keys == epochs.Keys
  {
    map e | e in epochs ::
      if e < superseded then epochs[e].(writeKey := None)
      else if e == superseded && epochs[e].writeKey.Some? then epochs[e].(retireTime := Some(now))
      else epochs[e]
  }

  function OpenedRow(opening: EpochOpening, epoch: nat, recordId: nat, now: Time): EpochRow {
    EpochRow(epoch, Some(opening.writeKey), Some(opening.readKey), opening.algId, opening.expectedWraps,
             recordId, Some(now), now, None)
  }

  /** Step (6) on a won commit: the next epoch opens, the old key retires, the policy moves. */
  function OpenEpoch(limits: Limits, g: Group, epoch: nat, opening: EpochOpening, record: Record, now: Time): Group {
    var next := epoch + 1;
    g.(epochs := RetireKeys(g.epochs[next := OpenedRow(opening, next, record.recordId, now)], epoch, now),
       currentEpoch := next,
       epochComplete := false,
       policy := Apply(limits, opening).policy,
       policyVersion := g.policyVersion + 1,
       contextHash := opening.contextHash,
       commits := g.commits[record.epoch := CommitRow(record.epoch, record.recordId, record)])
  }

  /** Step (6b): only a marker naming the current epoch with the announced count opens the group. */
  function NoteMarker(g: Group, record: Record): Group {
    var tag := EpochCompleteTagOf(record);
    if tag.Some? && g.currentEpoch in g.epochs && tag.value.epoch == g.currentEpoch
       && tag.value.wrapCount == g.epochs[g.currentEpoch].expectedWraps
    then g.(epochComplete := true) else g
  }

  function NextSenderRow(senders: map<Bytes, SenderRow>, record: Record, now: Time): SenderRow {
    if record.sender in senders then
      SenderRow(record.streamIndex, senders[record.sender].recordCount + 1,
                senders[record.sender].byteCount + RecordBytes(record), now)
    else SenderRow(record.streamIndex, 1, RecordBytes(record), now)
  }

  function NextRecovery(recovery: map<Bytes, RecoveryRow>, record: Record, now: Time): map<Bytes, RecoveryRow> {
    var tag := RecoveryTagOf(record);
    if tag.Some? && tag.value.handle !in recovery
    then recovery[tag.value.handle := RecoveryRow(tag.value.verifyPub, tag.value.algId, now)]
    else recovery
  }

  /** Steps (5a), (6c) and (7): the claim, the row, the recovery pin and the sender's row. */
  function AppendRow(g: Group, record: Record, now: Time): Group {
    g.(claims := g.claims[KeyOf(record) := ClaimOf(record, now)],
       records := g.records + [RecordRow(record, PruneAfter(now, record.retentionClass, g.policy), now, g.policyVersion)],
       recovery := NextRecovery(g.recovery, record, now),
       senders := g.senders[record.sender := NextSenderRow(g.senders, record, now)])
  }

  function Stored(record: Record, recordId: nat): Record {
    record.(recordId := recordId, pruneAfter := None)
  }

  /** One accepted record written under the id allocated to it; `epoch` is the one read under the lock. */
  function StoreRecord(limits: Limits, g: Group, epoch: nat, keys: Option<EpochKeyDelivery>, record: Record,
                       recordId: nat, now: Time): Group
  {
    var stored := Stored(record, recordId);
    var opening := OpeningOf(record, keys);
    var advanced := if stored.isCommit && opening.Some? then OpenEpoch(limits, g, epoch, opening.value, stored, now) else g;
    AppendRow(NoteMarker(advanced, stored), stored, now)
  }

  /** How many of the first `n` records step (0) left unsettled: the ids a commit allocates to them. */
  function CountAbsent(outcomes: seq<Probe>, n: nat): (count: nat)
    requires n <= |outcomes|
    ensures count <= n
  {
    if n == 0 then 0 else CountAbsent(outcomes, n - 1) + if outcomes[n - 1] == Absent then 1 else 0
  }

  /** The unsettled records from `next` on, written one after another, the first under `recordId`. */
  function StoreFrom(limits: Limits, g: Group, epoch: nat, keys: Option<EpochKeyDelivery>, batch: seq<Record>,
                     outcomes: seq<Probe>, next: nat, recordId: nat, now: Time): Group
    requires |outcomes| == |batch| && next <= |batch|
    decreases |batch| - next
  {
    if next == |batch| then g
    else if outcomes[next] != Absent then StoreFrom(limits, g, epoch, keys, batch, outcomes, next + 1, recordId, now)
    else StoreFrom(limits, StoreRecord(limits, g, epoch, keys, batch[next], recordId, now), epoch, keys, batch, outcomes,
                   next + 1, recordId + 1, now)
  }

  function Allocate(g: Group, count: nat): Group {
    g.(nextRecordId := g.nextRecordId + count)
  }

  /** Exactly as many ids as there are unsettled records, then the rows under them. */
  function CommitBatch(limits: Limits, g: Group, epoch: nat, keys: Option<EpochKeyDelivery>, batch: seq<Record>,
                       outcomes: seq<Probe>, now: Time): Group
    requires |outcomes| == |batch|
  {
    StoreFrom(limits, Allocate(g, CountAbsent(outcomes, |batch|)), epoch, keys, batch, outcomes, 0, g.nextRecordId, now)
  }

  /** The compare-and-swap in front of the writes finds an unsettled commit's epoch taken. */
  predicate CasLost(g: Group, batch: seq<Record>, outcomes: seq<Probe>, i: nat)
    requires |outcomes| == |batch|
  {
    i < |batch| && outcomes[i] == Absent && batch[i].isCommit && batch[i].epoch in g.commits
  }

  /** The first unsettled commit of the batch whose epoch already has a winner. */
  function FirstCasLost(g: Group, batch: seq<Record>, outcomes: seq<Probe>, next: nat): (r: Option<nat>)
    requires |outcomes| == |batch| && next <= |batch|
    ensures r.Some? ==> next <= r.value < |batch| && CasLost(g, batch, outcomes, r.value)
    ensures r.None? ==> forall i: nat :: next <= i < |batch| ==> !CasLost(g, batch, outcomes, i)
    decreases |batch| - next
  {
    if next == |batch| then None
    else if CasLost(g, batch, outcomes, next) then Some(next)
    else FirstCasLost(g, batch, outcomes, next + 1)
  }

  // ---- the answers ----

  datatype SubmitResult = SubmitResult(
    reason: Reason, recordId: nat, currentEpoch: nat, winningCommit: Option<Record>, applied: Option<Applied>)

  function WinnerFor(g: Group, record: Record, reason: Reason): Option<Record> {
    if record.isCommit && !Accepted(reason) && record.epoch in g.commits
    then Some(g.commits[record.epoch].record) else None
  }

  /** One record's answer in a batch that wrote nothing, before the group's epoch is filled in. */
  function RefusedReason(outcome: Probe, isOffender: bool, reason: Reason): Reason {
    if outcome.Identical? then ReasonOk else if isOffender then reason else ReasonRejected
  }

  /**
   One answer, filled from the group as it is read at that moment. `known` is the epoch the
   submission read under the row lock, or 0 when it never got there.
   */
  function FilledResult(g: Option<Group>, record: Record, outcome: Probe, reason: Reason, known: nat): SubmitResult {
    var id := if outcome.Identical? && Accepted(reason) then outcome.recordId else 0;
    if g.None? || g.value.closed then SubmitResult(reason, id, known, None, None)
    else SubmitResult(reason, id, if known == 0 then g.value.currentEpoch else known,
                      WinnerFor(g.value, record, reason), None)
  }

  function RefuseBatch(g: Option<Group>, batch: seq<Record>, outcomes: seq<Probe>, known: nat,
                       offender: nat, reason: Reason): (results: seq<SubmitResult>)
    requires |outcomes| == |batch|
    ensures |results| == |batch|
    ensures forall i :: 0 <= i < |batch| ==>
      results[i] == FilledResult(g, batch[i], outcomes[i], RefusedReason(outcomes[i], i == offender, reason), known)
  {
    seq(|batch|, i requires 0 <= i < |batch| =>
      FilledResult(g, batch[i], outcomes[i], RefusedReason(outcomes[i], i == offender, reason), known))
  }

  /** The answer of a batch every record of which already landed. */
  function AllSettled(g: Option<Group>, batch: seq<Record>, outcomes: seq<Probe>): (results: seq<SubmitResult>)
    requires |outcomes| == |batch|
    ensures |results| == |batch|
    ensures forall i :: 0 <= i < |batch| ==> results[i] == FilledResult(g, batch[i], outcomes[i], ReasonOk, 0)
  {
    seq(|batch|, i requires 0 <= i < |batch| => FilledResult(g, batch[i], outcomes[i], ReasonOk, 0))
  }

  function UnavailableResult(outcome: Probe): SubmitResult {
    if outcome.Identical? then SubmitResult(ReasonOk, outcome.recordId, 0, None, None)
    else SubmitResult(ReasonRejected, 0, 0, None, None)
  }

  function RefuseUnavailable(outcomes: seq<Probe>): (results: seq<SubmitResult>)
    ensures |results| == |outcomes|
    ensures forall i :: 0 <= i < |outcomes| ==> results[i] == UnavailableResult(outcomes[i])
  {
    seq(|outcomes|, i requires 0 <= i < |outcomes| => UnavailableResult(outcomes[i]))
  }

  function AppliedFor(limits: Limits, record: Record, keys: Option<EpochKeyDelivery>): Option<Applied> {
    var opening := OpeningOf(record, keys);
    if record.isCommit && opening.Some? then Some(Apply(limits, opening.value)) else None
  }

  /** The `i`th answer of a batch that was written: its ids run on from `first`, in batch order. */
  function CommittedResult(limits: Limits, state: GroupState, keys: Option<EpochKeyDelivery>, batch: seq<Record>,
                           outcomes: seq<Probe>, first: nat, i: nat): SubmitResult
    requires |outcomes| == |batch| && i < |batch|
  {
    if outcomes[i] != Absent then
      SubmitResult(ReasonOk, if outcomes[i].Identical? then outcomes[i].recordId else 0, state.currentEpoch, None, None)
    else
      var applied := AppliedFor(limits, batch[i], keys);
      SubmitResult(AcceptanceReason(applied), first + CountAbsent(outcomes, i),
                   if batch[i].isCommit then state.currentEpoch + 1 else state.currentEpoch, None, applied)
  }

  function CommittedResults(limits: Limits, state: GroupState, keys: Option<EpochKeyDelivery>, batch: seq<Record>,
                            outcomes: seq<Probe>, first: nat): (results: seq<SubmitResult>)
    requires |outcomes| == |batch|
    ensures |results| == |batch|
    ensures forall i :: 0 <= i < |batch| ==>
      results[i] == CommittedResult(limits, state, keys, batch, outcomes, first, i)
  {
    seq(|batch|, i requires 0 <= i < |batch| => CommittedResult(limits, state, keys, batch, outcomes, first, i))
  }

  // ---- the whole transaction, uninterleaved ----

  datatype SubmitRequest = SubmitRequest(records: seq<Record>, keys: Option<EpochKeyDelivery>)

  /** The shape rules a submission is held to before anything is read. */
  function ValidateFrom(records: seq<Record>, next: nat): Option<StoreError>
    requires next <= |records|
    decreases |records| - next
  {
    if next == |records| then None
    else if ValidateRecord(records[next]).Some? then ValidateRecord(records[next])
    else ValidateFrom(records, next + 1)
  }

  predicate HasCommit(records: seq<Record>) {
    exists i :: 0 <= i < |records| && records[i].isCommit
  }

  function ValidateBatch(request: SubmitRequest): Option<StoreError> {
    if |request.records| == 0 then Some(ErrEmptyBatch)
    else if ValidateFrom(request.records, 0).Some? then ValidateFrom(request.records, 0)
    else if HasCommit(request.records) && |request.records| != 1 then Some(ErrCommitBatch)
    else None
  }

  predicate AllIdentical(outcomes: seq<Probe>) {
    forall i :: 0 <= i < |outcomes| ==> outcomes[i].Identical?
  }

  predicate SomeDiffer(outcomes: seq<Probe>) {
    exists i :: 0 <= i < |outcomes| && outcomes[i].Differs?
  }

  function FirstDiffering(outcomes: seq<Probe>, next: nat): (i: nat)
    requires next <= |outcomes|
    requires exists i :: next <= i < |outcomes| && outcomes[i].Differs?
    ensures next <= i < |outcomes| && outcomes[i].Differs?
    ensures forall j :: next <= j < i ==> !outcomes[j].Differs?
    decreases |outcomes| - next
  {
    if outcomes[next].Differs? then next else FirstDiffering(outcomes, next + 1)
  }

  datatype Submitted = Submitted(group: Option<Group>, results: seq<SubmitResult>)

  /** Steps (1) to (7): what a submission step (0) did not answer makes of an open group. */
  function Transact(limits: Limits, g: Group, request: SubmitRequest, outcomes: seq<Probe>, now: Time): Submitted
    requires |outcomes| == |request.records|
  {
    var gated := GateFrom(g, StateOf(g), request.records, outcomes, request.keys, 0, map[], map[]);
    if gated.Refused? then
      Submitted(Some(g), RefuseBatch(Some(g), request.records, outcomes, g.currentEpoch, gated.offender, gated.reason))
    else
      Submitted(Some(CommitBatch(limits, g, g.currentEpoch, request.keys, request.records, outcomes, now)),
                CommittedResults(limits, StateOf(g), request.keys, request.records, outcomes, g.nextRecordId))
  }

  /** A well-shaped submission run with nothing else in flight. */
  function Submit(limits: Limits, g: Option<Group>, request: SubmitRequest, now: Time): Submitted {
    var batch := request.records;
    var outcomes := ProbeBatch(if g.Some? then g.value.claims else map[], batch);
    if SomeDiffer(outcomes) then
      Submitted(g, RefuseBatch(g, batch, outcomes, 0, FirstDiffering(outcomes, 0), ReasonStreamIndexReused))
    else if AllIdentical(outcomes) then Submitted(g, AllSettled(g, batch, outcomes))
    else if g.None? || g.value.closed then Submitted(g, RefuseUnavailable(outcomes))
    else Transact(limits, g.value, request, outcomes, now)
  }

  // ---- creation and closing ----

  datatype CreateRequest = CreateRequest(
    initialCommit: Record, bootstrapWriteKey: Bytes, keys: Option<EpochKeyDelivery>)

  predicate FoundingCommit(request: CreateRequest) {
    && request.initialCommit.isCommit
    && request.initialCommit.epoch == 0
    && WellFormedEpochAttachment(request.initialCommit, 1, request.keys)
  }

  /** The group a founding commit opens: epoch 0 holds the bootstrap key and is retired on sight. */
  function Founded(limits: Limits, request: CreateRequest, now: Time): Group
    requires FoundingCommit(request)
  {
    var opening := OpeningOf(request.initialCommit, request.keys).value;
    var record := Stored(request.initialCommit, FIRST_RECORD_ID);
    var policy := Apply(limits, opening).policy;
    Group(1, FIRST_RECORD_ID + 1, policy, 1, false, opening.contextHash, false,
          [RecordRow(record, PruneAfter(now, record.retentionClass, policy), now, 1)],
          map[KeyOf(record) := ClaimOf(record, now)],
          map[0 := CommitRow(0, record.recordId, record)],
          map[record.sender := SenderRow(record.streamIndex, 1, RecordBytes(record), now)],
          map[0 := EpochRow(0, Some(request.bootstrapWriteKey), None, 0, 0, 0, None, now, Some(now)),
              1 := OpenedRow(opening, 1, record.recordId, now)],
          NextRecovery(map[], record, now))
  }

  function Close(g: Group): Group {
    g.(closed := true)
  }

  // ---- the key custody read ----

  datatype EpochKeys = EpochKeys(
    epoch: nat, writeKey: Option<Bytes>, readKey: Option<Bytes>, readKeyInstall: Option<Time>, algId: nat,
    openedByRecord: nat, acceptTime: Time, retireTime: Option<Time>)

  /** An epoch that never existed, one whose keys have both gone and a closed group answer alike. */
  function KeysFor(g: Group, epoch: nat): Option<EpochKeys> {
    if g.closed || epoch !in g.epochs then None
    else
      var row := g.epochs[epoch];
      if row.writeKey.None? && row.readKey.None? then None
      else Some(EpochKeys(row.epoch, row.writeKey, row.readKey, row.readKeyInstall, row.algId,
                          row.openedByRecord, row.acceptTime, row.retireTime))
  }
}
