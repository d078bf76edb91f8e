/**
 What a submission is answered, said of the log and the batch alone: which records the probe finds
 settled, when the rest are taken and under which ids, and what the first that cannot be is refused
 with.
 */
module GroupAnswers {
  import opened Common
  import opened Records
  import opened GroupTransaction
  import opened GroupLog
  import opened GroupBatch
  import opened GroupRuns
  import opened GroupTheorems

  // ---- the shape ----

  /** A class a record may be stored under: permanent, durable, media, or one of the five rungs that last. */
  predicate Storable(retentionClass: nat) {
    retentionClass in {0x00, 0x01, 0x02, 0x11, 0x12, 0x13, 0x14, 0x15}
  }

  /** The attachment has the body of its kind, with its handles and keys of their lengths; the digest kind is not asked. */
  predicate AttachmentFits(a: Attachment) {
    && (a.kind == AttachmentWrap ==> a.wrap.Some? && |a.wrap.value.targetHandle| == 16)
    && (a.kind == AttachmentRecovery ==> a.recovery.Some? && |a.recovery.value.handle| == 16 && |a.recovery.value.verifyPub| == 32)
    && (a.kind == AttachmentEpochComplete ==> a.epochComplete.Some?)
    && (a.kind == AttachmentEpoch ==> a.epoch.Some?)
  }

  /** Everything that can be wrong with one record, in the order it is asked. */
  function Faults(record: Record): seq<(bool, StoreError)> {
    [(|record.sender| != 16 || |record.bodyHash| != 32 || record.ctHead == [], ErrIdentifierShape),
     (6 <= record.sizeBucket, ErrSizeBucket),
     (!Storable(record.retentionClass) && record.retentionClass != 0x10, ErrRetentionClass),
     (record.retentionClass == 0x10, ErrTransientRecord),
     (0x8000_0000_0000_0000 <= record.ephWindow, ErrEphWindowRange),
     (record.ephWindow != 0 && record.retentionClass <= 0x02, ErrEphWindowClass),
     (record.ctBody.Some? && record.blobId.Some?, ErrInlineOrBlob),
     (record.blobId.Some? && |record.blobId.value| != 32, ErrIdentifierShape),
     (record.attachment.Some? && !AttachmentFits(record.attachment.value), ErrIdentifierShape)]
  }

  ghost predicate FirstFault(record: Record, k: nat) {
    k < |Faults(record)| && Faults(record)[k].0 && forall j: nat :: j < k ==> !Faults(record)[j].0
  }

  /** A record passes exactly when nothing is wrong with it, and is refused with the first thing that is. */
  lemma RecordShapedExactly(record: Record)
    ensures ValidateRecord(record).None? <==> forall k: nat :: k < |Faults(record)| ==> !Faults(record)[k].0
    ensures forall k: nat :: FirstFault(record, k) ==> ValidateRecord(record) == Some(Faults(record)[k].1)
    ensures EphWindowClassAllows(record.retentionClass) <==> 17 <= record.retentionClass <= 21
  {
    hide ValidateAttachment, AttachmentFits;
    AttachmentFitsExactly(record);
    var f := Faults(record);
    assert ValidateRecord(record).None? <==>
      !f[0].0 && !f[1].0 && !f[2].0 && !f[3].0 && !f[4].0 && !f[5].0 && !f[6].0 && !f[7].0 && !f[8].0;
  }

  lemma AttachmentFitsExactly(record: Record)
    ensures ValidateAttachment(record) == if record.attachment.Some? && !AttachmentFits(record.attachment.value) then Some(ErrIdentifierShape) else None
  {
  }

  lemma {:induction false} FirstMisshaped(records: seq<Record>, next: nat)
    requires next <= |records|
    ensures ValidateFrom(records, next).None? <==> forall i: nat :: next <= i < |records| ==> ValidateRecord(records[i]).None?
    ensures forall i: nat :: next <= i < |records| && ValidateRecord(records[i]).Some? && (forall j: nat :: next <= j < i ==> ValidateRecord(records[j]).None?) ==>
              ValidateFrom(records, next) == ValidateRecord(records[i])
    decreases |records| - next
  {
    hide ValidateRecord;
    if next < |records| { FirstMisshaped(records, next + 1); }
  }

  /** A batch passes exactly when it has records, each is shaped and a commit is alone; the first misshaped record's error goes before a commit's. */
  lemma BatchShapedExactly(request: SubmitRequest)
    ensures ValidateBatch(request).None? <==>
              && request.records != [] && CommitAlone(request.records)
              && (forall i: nat :: i < |request.records| ==> ValidateRecord(request.records[i]).None?)
    ensures ValidateBatch(request) == Some(ErrEmptyBatch) <== request.records == []
    ensures forall i: nat :: i < |request.records| && ValidateRecord(request.records[i]).Some?
                             && (forall j: nat :: j < i ==> ValidateRecord(request.records[j]).None?) ==>
              ValidateBatch(request) == ValidateRecord(request.records[i])
    ensures (forall i: nat :: i < |request.records| ==> ValidateRecord(request.records[i]).None?) && !CommitAlone(request.records) ==>
              ValidateBatch(request) == Some(ErrCommitBatch)
  {
    hide ValidateRecord, ValidateFrom;
    FirstMisshaped(request.records, 0);
  }

  // ---- the probe ----

  /** Row `k` was sent by the same sender under the same index. */
  predicate SameSlot(g: Group, k: nat, record: Record) {
    k < |g.records| && At(g, k).sender == record.sender && At(g, k).streamIndex == record.streamIndex
  }

  predicate SameHashes(a: Record, b: Record) {
    a.bodyHash == b.bodyHash && a.headHash == b.headHash
  }

  /** The probe reads the log: no row in the slot, the row in it with these hashes, or one with others. */
  lemma ProbeReadsTheLog(g: Group, record: Record)
    requires ClaimsMatch(g)
    ensures ProbeRecord(g.claims, record) == Absent <==> forall k: nat :: !SameSlot(g, k, record)
    ensures forall id: nat :: ProbeRecord(g.claims, record) == Identical(id) <==>
              1 <= id && SameSlot(g, id - 1, record) && SameHashes(At(g, id - 1), record)
    ensures ProbeRecord(g.claims, record) == Differs <==>
              exists k: nat :: SameSlot(g, k, record) && !SameHashes(At(g, k), record)
  {
    if KeyOf(record) in g.claims {
      assert ClaimNames(g, KeyOf(record));
      assert SameSlot(g, g.claims[KeyOf(record)].recordId - 1, record);
    }
    forall k: nat | SameSlot(g, k, record) ensures KeyOf(record) in g.claims && g.claims[KeyOf(record)].recordId == k + 1 {
      assert KeyOf(At(g, k)) == KeyOf(record);
    }
  }

  // ---- what the log and the batch hold against a record ----

  /** The sender has sent an index this high, in the log or among the unsettled records before `n`. */
  ghost predicate Reached(g: Group, batch: seq<Record>, outcomes: seq<Probe>, n: nat, sender: Bytes, index: nat)
    requires |outcomes| == |batch| && n <= |batch|
  {
    || (exists k: nat :: k < |g.records| && At(g, k).sender == sender && index <= At(g, k).streamIndex)
    || (exists k: nat :: k < n && outcomes[k] == Absent && batch[k].sender == sender && index <= batch[k].streamIndex)
  }

  predicate Pins(record: Record, handle: Bytes, other: Bytes) {
    RecoveryTagOf(record).Some? && RecoveryTagOf(record).value.handle == handle && RecoveryTagOf(record).value.verifyPub != other
  }

  /** The handle is held under another key, in the log or among the unsettled records before `n`. */
  ghost predicate Taken(g: Group, batch: seq<Record>, outcomes: seq<Probe>, n: nat, handle: Bytes, verifyPub: Bytes)
    requires |outcomes| == |batch| && n <= |batch|
  {
    || (exists k: nat :: k < |g.records| && Pins(At(g, k), handle, verifyPub))
    || (exists k: nat :: k < n && outcomes[k] == Absent && Pins(batch[k], handle, verifyPub))
  }

  /** A marker with the announced count stands after the commit that opened the current epoch. */
  ghost predicate MarkerStands(g: Group) {
    exists c: nat, j: nat :: MarkedOpen(g, g.currentEpoch, c, j, |g.records|)
  }

  /** Both keys and the context hash of their lengths, for the epoch to be opened, with wraps to come. */
  predicate Opens(epoch: nat, opens: nat, writeKey: Bytes, readKey: Bytes, wraps: nat, contextHash: Option<Bytes>) {
    epoch == opens && |writeKey| == 32 && |readKey| == 32 && wraps != 0 && (contextHash.Some? ==> |contextHash.value| == 32)
  }

  /** A commit's attachment opens the epoch after `epoch`: the keys inside it, or beside it under the digest kind. */
  predicate OpensNext(record: Record, epoch: nat, keys: Option<EpochKeyDelivery>) {
    && record.attachment.Some?
    && match record.attachment.value.kind
       case AttachmentEpoch =>
         && keys.None? && record.attachment.value.epoch.Some?
         && var a := record.attachment.value.epoch.value;
            Opens(a.epoch, epoch + 1, a.writeKey, a.readKey, a.expectedWraps, a.contextHash)
       case AttachmentEpochDigest =>
         && keys.Some? && record.attachment.value.epochDigest.Some?
         && var a := record.attachment.value.epochDigest.value;
            Opens(a.epoch, epoch + 1, keys.value.writeKey, keys.value.readKey, a.expectedWraps, a.contextHash)
       case _ => false
  }

  predicate HasKind(record: Record, kind: AttachmentKind) {
    record.attachment.Some? && record.attachment.value.kind == kind
  }

  /** Ordinary records and commits wait for the marker; wraps and markers do not. */
  ghost predicate MayBeWritten(g: Group, record: Record) {
    MarkerStands(g) || HasKind(record, AttachmentWrap) || HasKind(record, AttachmentEpochComplete)
  }

  /** A commit opens the next epoch, and nothing else carries an epoch's attachment. */
  predicate WellAttached(record: Record, epoch: nat, keys: Option<EpochKeyDelivery>) {
    if record.isCommit then OpensNext(record, epoch, keys)
    else !HasKind(record, AttachmentEpoch) && !HasKind(record, AttachmentEpochDigest)
  }

  ghost predicate KeepsItsPin(g: Group, batch: seq<Record>, outcomes: seq<Probe>, i: nat)
    requires |outcomes| == |batch| && i < |batch|
  {
    var tag := RecoveryTagOf(batch[i]);
    tag.Some? ==> !Taken(g, batch, outcomes, i, tag.value.handle, tag.value.verifyPub)
  }

  /** Record `i` may be written: the current epoch, its fan-out, its attachment, its stream and its pin. */
  ghost predicate Admissible(g: Group, request: SubmitRequest, outcomes: seq<Probe>, i: nat)
    requires |outcomes| == |request.records| && i < |request.records|
  {
    var record := request.records[i];
    && record.epoch == g.currentEpoch && MayBeWritten(g, record) && WellAttached(record, g.currentEpoch, request.keys)
    && !Reached(g, request.records, outcomes, i, record.sender, record.streamIndex)
    && KeepsItsPin(g, request.records, outcomes, i)
  }

  /** What a record that may not be written is refused with: the first of those five it fails. */
  ghost function RefusalOf(g: Group, request: SubmitRequest, outcomes: seq<Probe>, i: nat): Reason
    requires |outcomes| == |request.records| && i < |request.records|
  {
    var record := request.records[i];
    if record.epoch != g.currentEpoch then
      if record.isCommit && record.epoch < g.currentEpoch then ReasonCommitLost else ReasonEpochStale
    else if !MayBeWritten(g, record) then ReasonEpochIncomplete
    else if !WellAttached(record, g.currentEpoch, request.keys) then ReasonRejected
    else if Reached(g, request.records, outcomes, i, record.sender, record.streamIndex) then ReasonStreamIndexRegressed
    else ReasonRejected
  }

  // ---- the gates ask exactly that ----

  /** The batch's high waters and pins, over the group's rows, say what the log and the batch say. */
  ghost predicate Noted(g: Group, batch: seq<Record>, outcomes: seq<Probe>, n: nat, highWater: map<Bytes, nat>, pinned: map<Bytes, Bytes>)
    requires |outcomes| == |batch| && n <= |batch|
  {
    && StreamsNoted(g, batch, outcomes, n, highWater) && PinsNoted(g, batch, outcomes, n, pinned)
  }

  ghost predicate StreamsNoted(g: Group, batch: seq<Record>, outcomes: seq<Probe>, n: nat, highWater: map<Bytes, nat>)
    requires |outcomes| == |batch| && n <= |batch|
  {
    forall s, index: nat ::
      Reached(g, batch, outcomes, n, s, index) <==>
      LastIndex(g.senders, highWater, s).Some? && index <= LastIndex(g.senders, highWater, s).value
  }

  ghost predicate PinsNoted(g: Group, batch: seq<Record>, outcomes: seq<Probe>, n: nat, pinned: map<Bytes, Bytes>)
    requires |outcomes| == |batch| && n <= |batch|
  {
    forall h, v ::
      Taken(g, batch, outcomes, n, h, v) <==> PinOf(g.recovery, pinned, h).Some? && PinOf(g.recovery, pinned, h).value != v
  }

  lemma {:induction false} StreamsNotedAtFirst(g: Group, batch: seq<Record>, outcomes: seq<Probe>)
    requires |outcomes| == |batch| && ClaimsMatch(g) && SendersMatch(g)
    ensures StreamsNoted(g, batch, outcomes, 0, map[])
  {
    forall s, index: nat
      ensures Reached(g, batch, outcomes, 0, s, index) <==> s in g.senders && index <= g.senders[s].lastStreamIndex
    {
      if s in g.senders {
        var key := ClaimKey(s, g.senders[s].lastStreamIndex);
        assert ClaimNames(g, key);
        assert KeyOf(At(g, g.claims[key].recordId - 1)) == key;
      }
      if k: nat :| k < |g.records| && At(g, k).sender == s && index <= At(g, k).streamIndex {
        assert KeyOf(At(g, k)) in g.claims;
      }
    }
  }

  lemma {:induction false} PinsNotedAtFirst(g: Group, batch: seq<Record>, outcomes: seq<Probe>)
    requires |outcomes| == |batch| && PinsMatch(g)
    ensures PinsNoted(g, batch, outcomes, 0, map[])
  {
    forall h, v ensures Taken(g, batch, outcomes, 0, h, v) <==> h in g.recovery && g.recovery[h].verifyPub != v {
      if h in g.recovery {
        var i: nat :| PinnedBy(g, i, h);
        assert RecoveryTagOf(At(g, i)).Some?;
      }
      if k: nat :| k < |g.records| && Pins(At(g, k), h, v) { assert PinAgrees(g, At(g, k)); }
    }
  }

  lemma MarkerIsRead(g: Group)
    requires GroupInv(g)
    ensures g.epochComplete <==> MarkerStands(g)
  {
    hide ClaimsMatch, SendersMatch, AccountsMatch, PinsMatch, Gapless, EpochsOrdered, ClosesEpoch, AnnouncedWraps, OpensEpoch;
    var e := g.currentEpoch;
    assert e in g.epochs && EpochRowMatches(g, e) && CommitNames(g, e - 1);
    if g.epochComplete { MarkerIsMarkedOpen(g, e, |g.records|); }
    if c: nat, j: nat :| MarkedOpen(g, e, c, j, |g.records|) { OpenerIsTheCommit(g, c); }
  }

  /** Only one commit opens the current epoch. */
  lemma OpenerIsTheCommit(g: Group, c: nat)
    requires CommitsMatch(g) && KeysMatch(g) && c < |g.records| && At(g, c).isCommit && OpensEpoch(At(g, c)) == Some(g.currentEpoch)
    ensures g.currentEpoch - 1 in g.commits && g.commits[g.currentEpoch - 1].recordId == c + 1
            && g.commits[g.currentEpoch - 1].record == At(g, c)
  {
    var e := At(g, c).epoch;
    assert e in g.commits && CommitNames(g, e) && EpochRowMatches(g, e + 1);
  }

  lemma WellAttachedIsWellFormed(record: Record, epoch: nat, keys: Option<EpochKeyDelivery>)
    ensures WellAttached(record, epoch, keys) <==>
              && record.isCommit == IsEpochAttachmentKind(KindOf(record))
              && (record.isCommit ==> WellFormedEpochAttachment(record, epoch + 1, keys))
  {
  }

  /** One gate, against what has been noted. */
  lemma {:induction false} GateAsks(g: Group, request: SubmitRequest, outcomes: seq<Probe>, i: nat, highWater: map<Bytes, nat>, pinned: map<Bytes, Bytes>)
    requires |outcomes| == |request.records| && i < |request.records| && GroupInv(g)
    requires Noted(g, request.records, outcomes, i, highWater, pinned)
    ensures Gate(g, StateOf(g), request.records[i], request.keys, highWater, pinned)
         == if Admissible(g, request, outcomes, i) then ReasonOk else RefusalOf(g, request, outcomes, i)
  {
    hide WellAttached, WellFormedEpochAttachment, MarkerStands, Reached, Taken, GroupInv;
    var record := request.records[i];
    MarkerIsRead(g);
    WellAttachedIsWellFormed(record, g.currentEpoch, request.keys);
    CommittedEpochs(g, record.epoch);
    assert Reached(g, request.records, outcomes, i, record.sender, record.streamIndex) <==>
           Regresses(record, LastIndex(g.senders, highWater, record.sender));
    assert KeepsItsPin(g, request.records, outcomes, i) <==> !Rebinds(record, g, pinned);
  }

  lemma CommittedEpochs(g: Group, e: nat)
    requires GroupInv(g)
    ensures e in g.commits <==> e < g.currentEpoch
  {
  }

  lemma {:induction false} NotedNext(g: Group, batch: seq<Record>, outcomes: seq<Probe>, i: nat, highWater: map<Bytes, nat>, pinned: map<Bytes, Bytes>)
    requires |outcomes| == |batch| && i < |batch| && outcomes[i] == Absent && Noted(g, batch, outcomes, i, highWater, pinned)
    requires !Regresses(batch[i], LastIndex(g.senders, highWater, batch[i].sender)) && !Rebinds(batch[i], g, pinned)
    ensures Noted(g, batch, outcomes, i + 1, NoteHighWater(highWater, batch[i]), NotePin(pinned, batch[i]))
  {
    hide Reached, Taken;
    var n, highWater', pinned' := i + 1, NoteHighWater(highWater, batch[i]), NotePin(pinned, batch[i]);
    forall s, index: nat
      ensures Reached(g, batch, outcomes, n, s, index) <==>
              LastIndex(g.senders, highWater', s).Some? && index <= LastIndex(g.senders, highWater', s).value
    {
      ReachedNext(g, batch, outcomes, i, s, index);
    }
    forall h, v
      ensures Taken(g, batch, outcomes, n, h, v) <==>
              PinOf(g.recovery, pinned', h).Some? && PinOf(g.recovery, pinned', h).value != v
    {
      TakenNext(g, batch, outcomes, i, h, v);
    }
  }

  lemma {:induction false} ReachedNext(g: Group, batch: seq<Record>, outcomes: seq<Probe>, i: nat, s: Bytes, index: nat)
    requires |outcomes| == |batch| && i < |batch|
    ensures Reached(g, batch, outcomes, i + 1, s, index) <==>
            Reached(g, batch, outcomes, i, s, index) || (outcomes[i] == Absent && batch[i].sender == s && index <= batch[i].streamIndex)
  {
  }

  lemma {:induction false} TakenNext(g: Group, batch: seq<Record>, outcomes: seq<Probe>, i: nat, h: Bytes, v: Bytes)
    requires |outcomes| == |batch| && i < |batch|
    ensures Taken(g, batch, outcomes, i + 1, h, v) <==>
            Taken(g, batch, outcomes, i, h, v) || (outcomes[i] == Absent && Pins(batch[i], h, v))
  {
  }

  lemma {:induction false} NotedPast(g: Group, batch: seq<Record>, outcomes: seq<Probe>, i: nat, highWater: map<Bytes, nat>, pinned: map<Bytes, Bytes>)
    requires |outcomes| == |batch| && i < |batch| && outcomes[i] != Absent && Noted(g, batch, outcomes, i, highWater, pinned)
    ensures Noted(g, batch, outcomes, i + 1, highWater, pinned)
  {
    hide Reached, Taken;
    var n := i + 1;
    forall s, index: nat
      ensures Reached(g, batch, outcomes, n, s, index) <==>
              LastIndex(g.senders, highWater, s).Some? && index <= LastIndex(g.senders, highWater, s).value
    {
      ReachedNext(g, batch, outcomes, i, s, index);
    }
    forall h, v
      ensures Taken(g, batch, outcomes, n, h, v) <==> PinOf(g.recovery, pinned, h).Some? && PinOf(g.recovery, pinned, h).value != v
    {
      TakenNext(g, batch, outcomes, i, h, v);
    }
  }

  ghost predicate Fails(g: Group, request: SubmitRequest, outcomes: seq<Probe>, i: nat)
    requires |outcomes| == |request.records| && i < |request.records|
  {
    outcomes[i] == Absent && !Admissible(g, request, outcomes, i)
  }

  /** What the gates come to: they pass when every unsettled record may be written, and else name the first that may not. */
  ghost predicate GatesTo(g: Group, request: SubmitRequest, outcomes: seq<Probe>, from: nat, gated: GateResult)
    requires |outcomes| == |request.records|
  {
    && (gated.Passed? <==> forall i: nat :: from <= i < |request.records| ==> !Fails(g, request, outcomes, i))
    && (gated.Refused? ==>
          && from <= gated.offender < |request.records| && Fails(g, request, outcomes, gated.offender)
          && gated.reason == RefusalOf(g, request, outcomes, gated.offender)
          && (forall i: nat :: from <= i < gated.offender ==> !Fails(g, request, outcomes, i)))
  }

  lemma {:induction false} GatesAsk(
    g: Group, request: SubmitRequest, outcomes: seq<Probe>, next: nat, highWater: map<Bytes, nat>, pinned: map<Bytes, Bytes>)
    requires |outcomes| == |request.records| && next <= |request.records| && GroupInv(g)
    requires Noted(g, request.records, outcomes, next, highWater, pinned)
    ensures GatesTo(g, request, outcomes, next,
                    GateFrom(g, StateOf(g), request.records, outcomes, request.keys, next, highWater, pinned))
    decreases |request.records| - next
  {
    hide GroupInv, Noted, Admissible, RefusalOf, Gate, GatesTo;
    if next == |request.records| {
      GatesEnd(g, request, outcomes);
    } else {
      if outcomes[next] != Absent {
        NotedPast(g, request.records, outcomes, next, highWater, pinned);
        GatesAsk(g, request, outcomes, next + 1, highWater, pinned);
        GatesOn(g, request, outcomes, next, GateFrom(g, StateOf(g), request.records, outcomes, request.keys, next + 1, highWater, pinned));
      } else {
        GateAsks(g, request, outcomes, next, highWater, pinned);
        if Admissible(g, request, outcomes, next) {
          PassedGate(g, request.records[next], request.keys, highWater, pinned);
          NotedNext(g, request.records, outcomes, next, highWater, pinned);
          var highWater', pinned' := NoteHighWater(highWater, request.records[next]), NotePin(pinned, request.records[next]);
          GatesAsk(g, request, outcomes, next + 1, highWater', pinned');
          GatesOn(g, request, outcomes, next, GateFrom(g, StateOf(g), request.records, outcomes, request.keys, next + 1, highWater', pinned'));
        } else {
          RefusalRefuses(g, request, outcomes, next);
          GatesRefuse(g, request, outcomes, next);
        }
      }
    }
  }

  lemma {:induction false} GatesEnd(g: Group, request: SubmitRequest, outcomes: seq<Probe>)
    requires |outcomes| == |request.records|
    ensures GatesTo(g, request, outcomes, |request.records|, Passed)
  {
  }

  lemma {:induction false} GatesOn(g: Group, request: SubmitRequest, outcomes: seq<Probe>, next: nat, gated: GateResult)
    requires |outcomes| == |request.records| && next < |request.records|
    requires !Fails(g, request, outcomes, next) && GatesTo(g, request, outcomes, next + 1, gated)
    ensures GatesTo(g, request, outcomes, next, gated)
  {
    hide Fails, RefusalOf;
  }

  lemma {:induction false} GatesRefuse(g: Group, request: SubmitRequest, outcomes: seq<Probe>, next: nat)
    requires |outcomes| == |request.records| && next < |request.records| && Fails(g, request, outcomes, next)
    ensures GatesTo(g, request, outcomes, next, Refused(next, RefusalOf(g, request, outcomes, next)))
  {
    hide Fails, RefusalOf;
  }

  lemma {:induction false} RefusalRefuses(g: Group, request: SubmitRequest, outcomes: seq<Probe>, i: nat)
    requires |outcomes| == |request.records| && i < |request.records|
    ensures !Accepted(RefusalOf(g, request, outcomes, i))
  {
  }

  lemma PassedGate(g: Group, record: Record, keys: Option<EpochKeyDelivery>, highWater: map<Bytes, nat>, pinned: map<Bytes, Bytes>)
    requires Gate(g, StateOf(g), record, keys, highWater, pinned) == ReasonOk
    ensures !Regresses(record, LastIndex(g.senders, highWater, record.sender)) && !Rebinds(record, g, pinned)
  {
  }

  lemma {:induction false} BatchIsGated(g: Group, request: SubmitRequest, outcomes: seq<Probe>)
    requires |outcomes| == |request.records| && GroupInv(g)
    ensures GatesTo(g, request, outcomes, 0, GateFrom(g, StateOf(g), request.records, outcomes, request.keys, 0, map[], map[]))
  {
    StreamsNotedAtFirst(g, request.records, outcomes);
    PinsNotedAtFirst(g, request.records, outcomes);
    hide GroupInv, StreamsNoted, PinsNoted, GatesTo;
    GatesAsk(g, request, outcomes, 0, map[], map[]);
  }

  // ---- what a batch that may be written leaves ----

  /** A row as it is written, under the policy in force once its batch is. */
  ghost predicate WrittenAs(g: Group, k: nat, record: Record, now: Time) {
    && k < |g.records| && g.records[k].record == record.(recordId := k + 1, pruneAfter := None)
    && g.records[k].createTime == now && g.records[k].policyVersion == g.policyVersion
    && g.records[k].pruneAfter == PruneAfter(now, record.retentionClass, g.policy)
  }

  ghost predicate SamePolicy(g: Group, g': Group) {
    && g'.currentEpoch == g.currentEpoch && g'.policy == g.policy && g'.policyVersion == g.policyVersion
    && g'.contextHash == g.contextHash && g'.epochs == g.epochs && g'.commits == g.commits
  }

  lemma PlainRecord(limits: Limits, g: Group, epoch: nat, keys: Option<EpochKeyDelivery>, record: Record, now: Time)
    requires !record.isCommit
    ensures var g' := StoreRecord(limits, g, epoch, keys, record, |g.records| + 1, now);
            SamePolicy(g, g') && |g'.records| == |g.records| + 1 && g.records <= g'.records && WrittenAs(g', |g.records|, record, now)
  {
    hide OpenEpoch, PruneAfter, NextRecovery, NextSenderRow;
  }

  lemma {:induction false} PlainBatch(
    limits: Limits, g: Group, epoch: nat, keys: Option<EpochKeyDelivery>, batch: seq<Record>, outcomes: seq<Probe>, next: nat, now: Time, i: nat)
    requires |outcomes| == |batch| && next <= |batch| && !HasCommit(batch)
    ensures var g' := StoreFrom(limits, g, epoch, keys, batch, outcomes, next, |g.records| + 1, now);
            && SamePolicy(g, g') && g.records <= g'.records
            && (next <= i < |batch| && outcomes[i] == Absent ==>
                  var before := CountAbsent(outcomes, i) - CountAbsent(outcomes, next);
                  0 <= before && WrittenAs(g', |g.records| + before, batch[i], now))
    decreases |batch| - next
  {
    hide StoreRecord, PruneAfter;
    if next < |batch| {
      if outcomes[next] != Absent {
        PlainBatch(limits, g, epoch, keys, batch, outcomes, next + 1, now, i);
      } else {
        PlainRecord(limits, g, epoch, keys, batch[next], now);
        PlainBatch(limits, StoreRecord(limits, g, epoch, keys, batch[next], |g.records| + 1, now), epoch, keys, batch, outcomes, next + 1, now, i);
      }
    }
  }

  /** What a commit asks for: media and text, off the attachment of either kind. */
  function TtlsOf(record: Record): (nat, nat) {
    if HasKind(record, AttachmentEpoch) && record.attachment.value.epoch.Some? then
      (record.attachment.value.epoch.value.mediaTtl, record.attachment.value.epoch.value.durableTtl)
    else if HasKind(record, AttachmentEpochDigest) && record.attachment.value.epochDigest.Some? then
      (record.attachment.value.epochDigest.value.mediaTtl, record.attachment.value.epochDigest.value.durableTtl)
    else (0, 0)
  }

  function ContextOf(record: Record): Option<Bytes> {
    if HasKind(record, AttachmentEpoch) && record.attachment.value.epoch.Some? then record.attachment.value.epoch.value.contextHash
    else if HasKind(record, AttachmentEpochDigest) && record.attachment.value.epochDigest.Some? then
      record.attachment.value.epochDigest.value.contextHash
    else None
  }

  /** What the limits make of the times a commit asks for. */
  function PolicyFor(limits: Limits, record: Record): Applied {
    Apply(limits, EpochOpening(0, 0, TtlsOf(record).0, TtlsOf(record).1, None, 0, [], []))
  }

  lemma CommitRecord(limits: Limits, g: Group, keys: Option<EpochKeyDelivery>, record: Record, now: Time)
    requires record.isCommit && OpensNext(record, g.currentEpoch, keys)
    ensures var g' := StoreRecord(limits, g, g.currentEpoch, keys, record, |g.records| + 1, now);
            && g'.currentEpoch == g.currentEpoch + 1 && g'.policyVersion == g.policyVersion + 1
            && g'.policy == PolicyFor(limits, record).policy && g'.contextHash == ContextOf(record)
            && |g'.records| == |g.records| + 1 && g.records <= g'.records && WrittenAs(g', |g.records|, record, now)
    ensures AppliedFor(limits, record, keys) == Some(PolicyFor(limits, record))
  {
    hide PruneAfter, NextRecovery, NextSenderRow, RetireKeys;
  }

  /** The answer of one record of a batch that was written. */
  ghost predicate TakenAs(limits: Limits, g: Group, g': Group, record: Record, outcome: Probe, before: nat, result: SubmitResult, now: Time) {
    if outcome.Identical? then result == SubmitResult(ReasonOk, outcome.recordId, g'.currentEpoch, None, None)
    else
      && result.recordId == |g.records| + 1 + before && WrittenAs(g', |g.records| + before, record, now)
      && result.currentEpoch == g'.currentEpoch && result.winningCommit == None
      && result.applied == (if record.isCommit then Some(PolicyFor(limits, record)) else None)
      && (result.reason == ReasonRetentionClamped <==> record.isCommit && Clamped(PolicyFor(limits, record)))
      && (result.reason == ReasonOk <==> !(record.isCommit && Clamped(PolicyFor(limits, record))))
  }

  /** The group once a batch is written: one row per unsettled record, and a commit's epoch, policy and context. */
  ghost predicate GrownBy(limits: Limits, g: Group, g': Group, batch: seq<Record>, count: nat) {
    && g.records <= g'.records && |g'.records| == |g.records| + count && g'.nextRecordId == g.nextRecordId + count && g'.closed == g.closed
    && if HasCommit(batch) then
         && |batch| == 1 && g'.currentEpoch == g.currentEpoch + 1 && g'.policyVersion == g.policyVersion + 1
         && g'.policy == PolicyFor(limits, batch[0]).policy && g'.contextHash == ContextOf(batch[0])
       else SamePolicy(g, g')
  }

  lemma {:induction false} OneCommit(limits: Limits, g: Group, keys: Option<EpochKeyDelivery>, batch: seq<Record>, outcomes: seq<Probe>, now: Time)
    requires |outcomes| == |batch| == 1 && outcomes[0] == Absent && batch[0].isCommit && OpensNext(batch[0], g.currentEpoch, keys)
    requires g.nextRecordId == |g.records| + 1
    ensures var g' := CommitBatch(limits, g, g.currentEpoch, keys, batch, outcomes, now);
            && GrownBy(limits, g, g', batch, 1)
            && TakenAs(limits, g, g', batch[0], outcomes[0], 0,
                       CommittedResult(limits, StateOf(g), keys, batch, outcomes, g.nextRecordId, 0), now)
  {
    hide StoreRecord, PruneAfter, Apply, OpensNext;
    var bumped := Allocate(g, 1);
    CommitRecord(limits, bumped, keys, batch[0], now);
    assert CountAbsent(outcomes, 1) == 1 && CountAbsent(outcomes, 0) == 0;
    var g' := StoreRecord(limits, bumped, g.currentEpoch, keys, batch[0], |g.records| + 1, now);
    StoreAppends(limits, bumped, g.currentEpoch, keys, batch[0], |g.records| + 1, now);
    assert StoreFrom(limits, g', g.currentEpoch, keys, batch, outcomes, 1, |g.records| + 2, now) == g';
    assert CommitBatch(limits, g, g.currentEpoch, keys, batch, outcomes, now) == g';
    assert batch[0].isCommit && HasCommit(batch);
  }

  lemma {:induction false} PlainBatchTaken(limits: Limits, g: Group, keys: Option<EpochKeyDelivery>, batch: seq<Record>, outcomes: seq<Probe>, now: Time, i: nat)
    requires |outcomes| == |batch| && i < |batch| && !HasCommit(batch) && !outcomes[i].Differs? && g.nextRecordId == |g.records| + 1
    ensures var g' := CommitBatch(limits, g, g.currentEpoch, keys, batch, outcomes, now);
            && GrownBy(limits, g, g', batch, CountAbsent(outcomes, |batch|))
            && TakenAs(limits, g, g', batch[i], outcomes[i], CountAbsent(outcomes, i),
                       CommittedResult(limits, StateOf(g), keys, batch, outcomes, g.nextRecordId, i), now)
  {
    hide StoreFrom, PruneAfter, Apply;
    var bumped := Allocate(g, CountAbsent(outcomes, |batch|));
    StoreFromAllocates(limits, bumped, g.currentEpoch, keys, batch, outcomes, 0, g.nextRecordId, now);
    PlainBatch(limits, bumped, g.currentEpoch, keys, batch, outcomes, 0, now, i);
    assert !batch[i].isCommit;
  }

  // ---- the whole answer ----

  /** The answer of one record of a batch that wrote nothing: settled ones keep their ids, one record has the reason. */
  ghost predicate RefusedAs(g: Group, record: Record, outcome: Probe, isOffender: bool, reason: Reason, result: SubmitResult) {
    && result.currentEpoch == g.currentEpoch && result.applied == None
    && if outcome.Identical? then result.reason == ReasonOk && result.recordId == outcome.recordId && result.winningCommit == None
       else
         && result.reason == (if isOffender then reason else ReasonRejected) && result.recordId == 0
         && (result.winningCommit.Some? <==> record.isCommit && record.epoch < g.currentEpoch)
         && (result.winningCommit.Some? ==> IsTheCommitOf(g, result.winningCommit.value, record.epoch))
  }

  /** The one commit of an epoch, as the log holds it. */
  ghost predicate IsTheCommitOf(g: Group, record: Record, epoch: nat) {
    exists k: nat :: k < |g.records| && At(g, k) == record && record.isCommit && record.epoch == epoch
  }

  lemma RefusalAnswers(g: Group, record: Record, outcome: Probe, isOffender: bool, reason: Reason, known: nat)
    requires GroupInv(g) && !g.closed && !Accepted(reason) && (known == 0 || known == g.currentEpoch)
    ensures RefusedAs(g, record, outcome, isOffender, reason,
                      FilledResult(Some(g), record, outcome, RefusedReason(outcome, isOffender, reason), known))
  {
    hide GroupInv;
    CommittedEpochs(g, record.epoch);
    if record.epoch < g.currentEpoch { WinnerStands(g, record.epoch); }
  }

  lemma WinnerStands(g: Group, epoch: nat)
    requires GroupInv(g) && epoch < g.currentEpoch
    ensures epoch in g.commits && IsTheCommitOf(g, g.commits[epoch].record, epoch)
  {
    assert epoch in g.commits && CommitNames(g, epoch);
    assert At(g, g.commits[epoch].recordId - 1) == g.commits[epoch].record;
  }

  /** The batch was refused for its record `first`, with this reason, and nothing was written. */
  ghost predicate Refuses(g: Group, batch: seq<Record>, outcomes: seq<Probe>, submitted: Submitted, first: nat, reason: Reason)
    requires |outcomes| == |batch|
  {
    && submitted.group == Some(g) && |submitted.results| == |batch|
    && forall i: nat :: i < |batch| ==> RefusedAs(g, batch[i], outcomes[i], i == first, reason, submitted.results[i])
  }

  /** The batch was written. */
  ghost predicate Takes(limits: Limits, g: Group, batch: seq<Record>, outcomes: seq<Probe>, submitted: Submitted, now: Time)
    requires |outcomes| == |batch|
  {
    && submitted.group.Some? && GrownBy(limits, g, submitted.group.value, batch, CountAbsent(outcomes, |batch|))
    && |submitted.results| == |batch|
    && forall i: nat :: i < |batch| ==>
         TakenAs(limits, g, submitted.group.value, batch[i], outcomes[i], CountAbsent(outcomes, i), submitted.results[i], now)
  }

  /** Whether step (0) leaves something to be written and nothing to be refused. */
  predicate LeftUnsettled(outcomes: seq<Probe>) {
    !SomeDiffer(outcomes) && !AllIdentical(outcomes)
  }

  /**
   Of every shaped batch that step (0) leaves unsettled, in every sound open group: it is accepted
   throughout if and only if each of its unsettled records may be written, and then it is written and
   answered whole; else nothing is written, and the first record that may not be written is answered
   with what it fails.
   */
  lemma SubmissionIsAnswered(limits: Limits, g: Group, request: SubmitRequest, now: Time)
    requires GroupInv(g) && !g.closed && ValidateBatch(request).None? && LeftUnsettled(ProbeBatch(g.claims, request.records))
    ensures var outcomes, submitted := ProbeBatch(g.claims, request.records), Submit(limits, Some(g), request, now);
            && (AllAccepted(submitted.results) <==> forall i: nat :: i < |request.records| ==> !Fails(g, request, outcomes, i))
            && (AllAccepted(submitted.results) ==> Takes(limits, g, request.records, outcomes, submitted, now))
            && (!AllAccepted(submitted.results) ==>
                  exists first: nat ::
                    && first < |request.records| && Fails(g, request, outcomes, first)
                    && (forall i: nat :: i < first ==> !Fails(g, request, outcomes, i))
                    && Refuses(g, request.records, outcomes, submitted, first, RefusalOf(g, request, outcomes, first)))
  {
    hide GroupInv, ValidateBatch, GateFrom, CommitBatch, CommittedResults, RefuseBatch, Fails, Takes, Refuses, RefusalOf;
    var outcomes := ProbeBatch(g.claims, request.records);
    var gated := GateFrom(g, StateOf(g), request.records, outcomes, request.keys, 0, map[], map[]);
    BatchIsGated(g, request, outcomes);
    if gated.Passed? {
      ShapedBatch(request);
      PassedIsTaken(limits, g, request, outcomes, now);
    } else {
      FailingIsRefused(limits, g, request, outcomes, gated.offender, gated.reason, now);
    }
  }

  lemma {:induction false} PassedIsTaken(limits: Limits, g: Group, request: SubmitRequest, outcomes: seq<Probe>, now: Time)
    requires GroupInv(g) && CommitAlone(request.records) && |outcomes| == |request.records| && LeftUnsettled(outcomes)
    requires forall i: nat :: i < |request.records| ==> !Fails(g, request, outcomes, i)
    ensures var submitted := Submitted(Some(CommitBatch(limits, g, g.currentEpoch, request.keys, request.records, outcomes, now)),
                                       CommittedResults(limits, StateOf(g), request.keys, request.records, outcomes, g.nextRecordId));
            Takes(limits, g, request.records, outcomes, submitted, now) && AllAccepted(submitted.results)
  {
    hide GroupInv, CommitBatch, TakenAs, GrownBy;
    var batch := request.records;
    NextIsAfterTheRows(g);
    if HasCommit(batch) {
      assert |batch| == 1 && batch[0].isCommit && outcomes[0] == Absent && !Fails(g, request, outcomes, 0);
      OneCommit(limits, g, request.keys, batch, outcomes, now);
      assert CountAbsent(outcomes, 1) == 1 && CountAbsent(outcomes, 0) == 0;
    } else {
      forall i: nat | i < |batch|
        ensures GrownBy(limits, g, CommitBatch(limits, g, g.currentEpoch, request.keys, batch, outcomes, now), batch, CountAbsent(outcomes, |batch|))
        ensures TakenAs(limits, g, CommitBatch(limits, g, g.currentEpoch, request.keys, batch, outcomes, now), batch[i], outcomes[i],
                        CountAbsent(outcomes, i), CommittedResult(limits, StateOf(g), request.keys, batch, outcomes, g.nextRecordId, i), now)
      {
        PlainBatchTaken(limits, g, request.keys, batch, outcomes, now, i);
      }
    }
  }

  lemma NextIsAfterTheRows(g: Group)
    requires GroupInv(g)
    ensures g.nextRecordId == |g.records| + 1
  {
  }

  lemma {:induction false} FailingIsRefused(limits: Limits, g: Group, request: SubmitRequest, outcomes: seq<Probe>, first: nat, reason: Reason, now: Time)
    requires GroupInv(g) && !g.closed && |outcomes| == |request.records| && first < |request.records|
    requires Fails(g, request, outcomes, first) && reason == RefusalOf(g, request, outcomes, first)
    ensures var submitted := Submitted(Some(g), RefuseBatch(Some(g), request.records, outcomes, g.currentEpoch, first, reason));
            Refuses(g, request.records, outcomes, submitted, first, reason) && !AllAccepted(submitted.results)
  {
    hide GroupInv, Admissible, RefusalOf, FilledResult;
    RefusalRefuses(g, request, outcomes, first);
    var results := RefuseBatch(Some(g), request.records, outcomes, g.currentEpoch, first, reason);
    forall i: nat | i < |request.records| ensures RefusedAs(g, request.records[i], outcomes[i], i == first, reason, results[i]) {
      RefusalAnswers(g, request.records[i], outcomes[i], i == first, reason, g.currentEpoch);
    }
    assert !Accepted(results[first].reason);
  }

  // ---- every other answer ----

  /** A batch with a slot taken by other content is refused for the first such record, and nothing is written. */
  lemma ReusedSlotIsRefused(limits: Limits, g: Group, request: SubmitRequest, now: Time)
    requires GroupInv(g) && !g.closed && SomeDiffer(ProbeBatch(g.claims, request.records))
    ensures var outcomes := ProbeBatch(g.claims, request.records);
            exists first: nat ::
              && first < |request.records| && outcomes[first].Differs? && (forall i: nat :: i < first ==> !outcomes[i].Differs?)
              && Refuses(g, request.records, outcomes, Submit(limits, Some(g), request, now), first, ReasonStreamIndexReused)
  {
    hide GroupInv, FilledResult, GateFrom, CommitBatch;
    var outcomes := ProbeBatch(g.claims, request.records);
    var first := FirstDiffering(outcomes, 0);
    var results := Submit(limits, Some(g), request, now).results;
    forall i: nat | i < |request.records|
      ensures RefusedAs(g, request.records[i], outcomes[i], i == first, ReasonStreamIndexReused, results[i])
    {
      RefusalAnswers(g, request.records[i], outcomes[i], i == first, ReasonStreamIndexReused, 0);
    }
  }

  /** What a group that is closed, or that there is none of, is answered with: no epoch, no winner, and one word for every refusal but the first reused slot. */
  ghost predicate RefusedBlind(batch: seq<Record>, outcomes: seq<Probe>, results: seq<SubmitResult>, first: Option<nat>)
    requires |outcomes| == |batch|
  {
    && |results| == |batch|
    && forall i: nat :: i < |batch| ==>
         results[i] == if outcomes[i].Identical? then SubmitResult(ReasonOk, outcomes[i].recordId, 0, None, None)
                       else SubmitResult(if first == Some(i) then ReasonStreamIndexReused else ReasonRejected, 0, 0, None, None)
  }

  lemma UnavailableIsRefused(limits: Limits, g: Option<Group>, request: SubmitRequest, now: Time)
    requires g.Some? ==> g.value.closed
    ensures var outcomes, submitted := ProbeBatch(if g.Some? then g.value.claims else map[], request.records), Submit(limits, g, request, now);
            && submitted.group == g
            && (!SomeDiffer(outcomes) ==> RefusedBlind(request.records, outcomes, submitted.results, None))
            && (SomeDiffer(outcomes) ==>
                  exists first: nat ::
                    && first < |request.records| && outcomes[first].Differs? && (forall i: nat :: i < first ==> !outcomes[i].Differs?)
                    && RefusedBlind(request.records, outcomes, submitted.results, Some(first)))
    ensures g.None? ==> !SomeDiffer(ProbeBatch(map[], request.records))
  {
    hide Transact;
    var outcomes, submitted := ProbeBatch(if g.Some? then g.value.claims else map[], request.records), Submit(limits, g, request, now);
    if SomeDiffer(outcomes) { assert RefusedBlind(request.records, outcomes, submitted.results, Some(FirstDiffering(outcomes, 0))); }
  }

  /** A batch every record of which the log already holds is answered with their ids, and writes nothing. */
  lemma SettledIsAnswered(limits: Limits, g: Group, request: SubmitRequest, now: Time)
    requires !g.closed && AllIdentical(ProbeBatch(g.claims, request.records))
    ensures var outcomes, submitted := ProbeBatch(g.claims, request.records), Submit(limits, Some(g), request, now);
            && submitted.group == Some(g) && |submitted.results| == |outcomes|
            && forall i: nat :: i < |outcomes| ==>
                 submitted.results[i] == SubmitResult(ReasonOk, outcomes[i].recordId, g.currentEpoch, None, None)
  {
    hide Transact;
  }

  // ---- and under the lock of a run ----

  /**
   In every reachable system, however stale its probe: a submission that has passed its gates is one
   whose every unsettled record may be written to the group as it stands, and its commit writes and
   answers exactly that; one that is refused fails first where its answer says, for the reason it gives.
   */
  lemma LockedSubmissionIsAnswered(limits: Limits, s: System, t: nat, now: Time)
    requires SystemInv(s)
    ensures Enabled(s, CommitCall(t, now)) ==>
              var call, s' := s.calls[t], Step(limits, s, CommitCall(t, now));
              && (forall i: nat :: i < |call.request.records| ==> !Fails(s.group, call.request, call.phase.outcomes, i))
              && t in s'.calls && s'.calls[t].phase.Answered?
              && Takes(limits, s.group, call.request.records, call.phase.outcomes, Submitted(Some(s'.group), s'.calls[t].phase.results), now)
    ensures Enabled(s, FillRefusal(t)) ==>
              var call, s' := s.calls[t], Step(limits, s, FillRefusal(t));
              && t in s'.calls && s'.calls[t].phase.Answered?
              && exists first: nat ::
                   && first < |call.request.records| && Fails(s.group, call.request, call.phase.outcomes, first)
                   && (forall i: nat :: i < first ==> !Fails(s.group, call.request, call.phase.outcomes, i))
                   && Refuses(s.group, call.request.records, call.phase.outcomes, Submitted(Some(s'.group), s'.calls[t].phase.results), first,
                              RefusalOf(s.group, call.request, call.phase.outcomes, first))
  {
    hide GroupInv, LockSound, ReaderSound, GateFrom, Fails, Takes, Refuses, RefusalOf, CommitBatch, CommittedResults, RefuseBatch, ProbeSound;
    if Enabled(s, CommitCall(t, now)) {
      var call := s.calls[t];
      assert CallSound(s.group, call);
      BatchIsGated(s.group, call.request, call.phase.outcomes);
      GatedCommitHasNotLost(s.group, call.request, call.phase);
      PassedIsTaken(limits, s.group, call.request, call.phase.outcomes, now);
    }
    if Enabled(s, FillRefusal(t)) {
      var call := s.calls[t];
      assert CallSound(s.group, call);
      BatchIsGated(s.group, call.request, call.phase.outcomes);
      FailingIsRefused(limits, s.group, call.request, call.phase.outcomes, call.phase.offender, call.phase.reason, now);
    }
  }
}
