/**
 The one shape every reachable group has. The claim, sender, commit, recovery and epoch rows are
 each tied to the log of records, and storing a record the gates admit keeps every tie.
 */
module GroupLog {
  import opened Common
  import opened Records
  import opened GroupTransaction

  /** The record at position `i` of the log. */
  function At(g: Group, i: nat): Record
    requires i < |g.records|
  {
    g.records[i].record
  }

  /** Ids are 1, 2, ..., n in log order, with no gap. */
  ghost predicate Gapless(g: Group) {
    forall i: nat :: i < |g.records| ==> At(g, i).recordId == i + 1
  }

  /** Epochs never decrease along the log and never pass the group's own. */
  ghost predicate EpochsOrdered(g: Group) {
    && (forall i: nat, j: nat :: i < j < |g.records| ==> At(g, i).epoch <= At(g, j).epoch)
    && (forall i: nat :: i < |g.records| ==> At(g, i).epoch <= g.currentEpoch)
  }

  ghost predicate ClaimNames(g: Group, key: ClaimKey) {
    && key in g.claims
    && 1 <= g.claims[key].recordId <= |g.records|
    && KeyOf(At(g, g.claims[key].recordId - 1)) == key
  }

  /** Claims and records are in bijection, and a claim holds its record's hashes. */
  ghost predicate ClaimsMatch(g: Group) {
    && (forall i: nat :: i < |g.records| ==>
          && KeyOf(At(g, i)) in g.claims
          && g.claims[KeyOf(At(g, i))].recordId == i + 1
          && SameContent(g.claims[KeyOf(At(g, i))], At(g, i)))
    && (forall key :: key in g.claims ==> ClaimNames(g, key))
  }

  /** Each sender's high water is the greatest index it has claimed. */
  ghost predicate SendersMatch(g: Group) {
    && (forall key :: key in g.claims ==>
          key.sender in g.senders && key.streamIndex <= g.senders[key.sender].lastStreamIndex)
    && (forall s :: s in g.senders ==> ClaimKey(s, g.senders[s].lastStreamIndex) in g.claims)
  }

  /** The records of one sender, and the octets they hold. */
  function SentBy(rows: seq<RecordRow>, sender: Bytes): (nat, nat) {
    if |rows| == 0 then (0, 0)
    else
      var (count, octets) := SentBy(rows[..|rows| - 1], sender);
      var last := rows[|rows| - 1].record;
      if last.sender == sender then (count + 1, octets + RecordBytes(last)) else (count, octets)
  }

  /** Each sender's accounting is the sum over its records, and a sender with no row has sent nothing. */
  ghost predicate AccountsMatch(g: Group) {
    forall s :: SentBy(g.records, s) ==
                if s in g.senders then (g.senders[s].recordCount, g.senders[s].byteCount) else (0, 0)
  }

  ghost predicate CommitNames(g: Group, e: nat) {
    && e in g.commits
    && 1 <= g.commits[e].recordId <= |g.records|
    && g.commits[e].record == At(g, g.commits[e].recordId - 1)
    && g.commits[e].record.isCommit
    && g.commits[e].record.epoch == e
  }

  /** The commit at `e` is the last record of its epoch. */
  ghost predicate ClosesEpoch(g: Group, e: nat)
    requires e in g.commits
  {
    forall j: nat :: g.commits[e].recordId <= j < |g.records| ==> e < At(g, j).epoch
  }

  /** One commit at each epoch below the current one and none elsewhere, each closing its epoch. */
  ghost predicate CommitsMatch(g: Group) {
    && (forall e: nat :: e in g.commits <==> e < g.currentEpoch)
    && (forall e: nat :: e in g.commits ==> CommitNames(g, e) && ClosesEpoch(g, e))
    && (forall i: nat :: i < |g.records| && At(g, i).isCommit ==>
          At(g, i).epoch in g.commits && g.commits[At(g, i).epoch].recordId == i + 1)
  }

  ghost predicate PinAgrees(g: Group, record: Record) {
    RecoveryTagOf(record).Some? ==>
      && RecoveryTagOf(record).value.handle in g.recovery
      && g.recovery[RecoveryTagOf(record).value.handle].verifyPub == RecoveryTagOf(record).value.verifyPub
  }

  /** The pin of `h` is what row `i` brought, when it brought it, and no row before names the handle. */
  ghost predicate PinnedBy(g: Group, i: nat, h: Bytes)
    requires h in g.recovery
  {
    && i < |g.records|
    && RecoveryTagOf(At(g, i)) == Some(RecoveryTag(h, g.recovery[h].verifyPub, g.recovery[h].algId))
    && g.recovery[h].firstSeen == g.records[i].createTime
    && (forall k: nat :: k < i && RecoveryTagOf(At(g, k)).Some? ==> RecoveryTagOf(At(g, k)).value.handle != h)
  }

  /** Every pin is the first that came, and every stored recovery record agrees with it. */
  ghost predicate PinsMatch(g: Group) {
    && (forall i: nat :: i < |g.records| ==> PinAgrees(g, At(g, i)))
    && (forall h :: h in g.recovery ==> exists i: nat :: PinnedBy(g, i, h))
  }

  ghost predicate EpochRowMatches(g: Group, e: nat) {
    && e in g.epochs
    && g.epochs[e].epoch == e
    && (g.epochs[e].writeKey.Some? <==> g.currentEpoch <= e + 1)
    && (g.epochs[e].readKey.Some? <==> 1 <= e)
    && (1 <= e ==>
          && e - 1 in g.commits
          && g.epochs[e].openedByRecord == g.commits[e - 1].recordId
          && AnnouncedWraps(g.commits[e - 1].record) == Some(g.epochs[e].expectedWraps)
          && OpensEpoch(g.commits[e - 1].record) == Some(e))
  }

  /** Write keys for exactly the current epoch and its predecessor; read keys for every epoch opened. */
  ghost predicate KeysMatch(g: Group) {
    && 1 <= g.currentEpoch == g.policyVersion
    && (forall e: nat :: e in g.epochs <==> e <= g.currentEpoch)
    && (forall e: nat :: e in g.epochs ==> EpochRowMatches(g, e))
  }

  /** A marker naming `e` with the count announced for it. */
  ghost predicate IsMarkerOf(record: Record, e: nat, announced: Option<nat>) {
    && EpochCompleteTagOf(record).Some?
    && EpochCompleteTagOf(record).value.epoch == e
    && announced == Some(EpochCompleteTagOf(record).value.wrapCount)
  }

  /** A marker closing the fan-out of `e` stands after the commit that opened `e` and before `limit`. */
  ghost predicate MarkerBefore(g: Group, e: nat, limit: nat)
    requires limit <= |g.records|
  {
    && 1 <= e
    && e - 1 in g.commits
    && exists j: nat ::
         && g.commits[e - 1].recordId <= j < limit
         && IsMarkerOf(At(g, j), e, AnnouncedWraps(g.commits[e - 1].record))
  }

  /** The epoch is complete exactly when its marker stands; before its marker nothing but wraps and markers was written. */
  ghost predicate MarkersMatch(g: Group) {
    && (g.epochComplete <==> MarkerBefore(g, g.currentEpoch, |g.records|))
    && (forall i: nat :: i < |g.records| && 1 <= At(g, i).epoch && !ExemptFromEpochComplete(At(g, i)) ==>
          MarkerBefore(g, At(g, i).epoch, i))
  }

  ghost predicate LogShape(g: Group) {
    && Gapless(g) && EpochsOrdered(g) && ClaimsMatch(g) && SendersMatch(g) && AccountsMatch(g)
    && CommitsMatch(g) && PinsMatch(g) && KeysMatch(g) && MarkersMatch(g)
  }

  /** The log invariant of a group between transactions. */
  ghost predicate GroupInv(g: Group) {
    LogShape(g) && g.nextRecordId == |g.records| + 1
  }

  /** The gates, asked of one record against the group exactly as it stands. */
  predicate Admits(g: Group, keys: Option<EpochKeyDelivery>, record: Record) {
    Gate(g, StateOf(g), record, keys, map[], map[]) == ReasonOk
  }

  // ---- what one admitted record changes, row by row ----

  ghost predicate RowsStep(g: Group, g': Group, r: Record) {
    && |g'.records| == |g.records| + 1
    && (forall i: nat :: i < |g.records| ==> At(g', i) == At(g, i))
    && At(g', |g.records|) == r
    && r.recordId == |g.records| + 1
    && r.epoch == g.currentEpoch
  }

  ghost predicate ClaimsStep(g: Group, g': Group, r: Record) {
    && KeyOf(r) !in g.claims
    && KeyOf(r) in g'.claims
    && g'.claims == g.claims[KeyOf(r) := g'.claims[KeyOf(r)]]
    && g'.claims[KeyOf(r)].recordId == r.recordId
    && SameContent(g'.claims[KeyOf(r)], r)
  }

  ghost predicate SendersStep(g: Group, g': Group, r: Record) {
    && r.sender in g'.senders
    && g'.senders == g.senders[r.sender := g'.senders[r.sender]]
    && g'.senders[r.sender].lastStreamIndex == r.streamIndex
    && (r.sender in g.senders ==> g.senders[r.sender].lastStreamIndex < r.streamIndex)
  }

  ghost predicate AccountsStep(g: Group, g': Group, r: Record) {
    && |g'.records| != 0 && g'.records[..|g'.records| - 1] == g.records && g'.records[|g'.records| - 1].record == r
    && r.sender in g'.senders
    && (forall s :: s != r.sender ==> (s in g'.senders <==> s in g.senders) && (s in g.senders ==> g'.senders[s] == g.senders[s]))
    && g'.senders[r.sender].recordCount == (if r.sender in g.senders then g.senders[r.sender].recordCount else 0) + 1
    && g'.senders[r.sender].byteCount
       == (if r.sender in g.senders then g.senders[r.sender].byteCount else 0) + RecordBytes(r)
  }

  ghost predicate CommitsStep(g: Group, g': Group, r: Record) {
    if r.isCommit then
      g'.currentEpoch == g.currentEpoch + 1 && g'.commits == g.commits[r.epoch := CommitRow(r.epoch, r.recordId, r)]
    else
      g'.currentEpoch == g.currentEpoch && g'.commits == g.commits
  }

  ghost predicate PinsStep(g: Group, g': Group, r: Record) {
    && g.records <= g'.records && |g'.records| == |g.records| + 1
    && (forall h :: h in g.recovery ==> h in g'.recovery && g'.recovery[h] == g.recovery[h])
    && PinAgrees(g', r)
    && (forall h :: h in g'.recovery && h !in g.recovery ==>
          && RecoveryTagOf(r) == Some(RecoveryTag(h, g'.recovery[h].verifyPub, g'.recovery[h].algId))
          && g'.recovery[h].firstSeen == g'.records[|g.records|].createTime)
  }

  /** An epoch row keeps everything but its write key, which goes once two later epochs have opened. */
  ghost predicate RowRetired(before: EpochRow, after: EpochRow, dropWriteKey: bool) {
    && after.epoch == before.epoch
    && after.readKey == before.readKey
    && after.writeKey == (if dropWriteKey then None else before.writeKey)
    && after.openedByRecord == before.openedByRecord
    && after.expectedWraps == before.expectedWraps
  }

  ghost predicate RowOpened(row: EpochRow, e: nat, r: Record) {
    && row.epoch == e
    && row.writeKey.Some? && row.readKey.Some?
    && row.openedByRecord == r.recordId
    && AnnouncedWraps(r) == Some(row.expectedWraps)
    && OpensEpoch(r) == Some(e)
  }

  ghost predicate KeysStep(g: Group, g': Group, r: Record) {
    if r.isCommit then
      && g'.policyVersion == g.policyVersion + 1
      && g'.epochs.Keys == g.epochs.Keys + {g.currentEpoch + 1}
      && (forall e: nat :: e in g.epochs && e <= g.currentEpoch ==>
            RowRetired(g.epochs[e], g'.epochs[e], e < g.currentEpoch))
      && RowOpened(g'.epochs[g.currentEpoch + 1], g.currentEpoch + 1, r)
    else g'.epochs == g.epochs && g'.policyVersion == g.policyVersion
  }

  /** A marker of the current epoch with the count its row holds. */
  ghost predicate MarksCurrent(g: Group, r: Record) {
    g.currentEpoch in g.epochs && IsMarkerOf(r, g.currentEpoch, Some(g.epochs[g.currentEpoch].expectedWraps))
  }

  ghost predicate MarkersStep(g: Group, g': Group, r: Record) {
    && (!ExemptFromEpochComplete(r) ==> g.epochComplete)
    && (r.isCommit ==> !g'.epochComplete)
    && (!r.isCommit ==> (g'.epochComplete <==> g.epochComplete || MarksCurrent(g, r)))
  }

  lemma AdmittedRowsStep(limits: Limits, g: Group, keys: Option<EpochKeyDelivery>, record: Record, now: Time)
    requires SendersMatch(g) && Admits(g, keys, record)
    ensures var g' := StoreRecord(limits, g, g.currentEpoch, keys, record, |g.records| + 1, now);
            var r := Stored(record, |g.records| + 1);
            RowsStep(g, g', r) && ClaimsStep(g, g', r) && SendersStep(g, g', r)
  {
  }

  lemma AdmittedPinsStep(limits: Limits, g: Group, keys: Option<EpochKeyDelivery>, record: Record, now: Time)
    requires Admits(g, keys, record)
    ensures PinsStep(g, StoreRecord(limits, g, g.currentEpoch, keys, record, |g.records| + 1, now), Stored(record, |g.records| + 1))
  {
  }

  lemma AdmittedCommitsStep(limits: Limits, g: Group, keys: Option<EpochKeyDelivery>, record: Record, now: Time)
    requires Admits(g, keys, record)
    ensures var g' := StoreRecord(limits, g, g.currentEpoch, keys, record, |g.records| + 1, now);
            var r := Stored(record, |g.records| + 1);
            CommitsStep(g, g', r) && MarkersStep(g, g', r)
  {
  }

  lemma StoredAccountsStep(limits: Limits, g: Group, keys: Option<EpochKeyDelivery>, record: Record, now: Time)
    ensures AccountsStep(g, StoreRecord(limits, g, g.currentEpoch, keys, record, |g.records| + 1, now),
                         Stored(record, |g.records| + 1))
  {
    hide OpeningOf, Apply, PruneAfter, NextRecovery, RetireKeys;
  }

  /** What passing the gates says of a commit. */
  lemma AdmittedCommit(g: Group, keys: Option<EpochKeyDelivery>, record: Record)
    requires Admits(g, keys, record) && record.isCommit
    ensures record.epoch == g.currentEpoch && OpeningOf(record, keys).Some?
    ensures var opening := OpeningOf(record, keys).value;
            && opening.epoch == g.currentEpoch + 1
            && OpensEpoch(record) == Some(opening.epoch)
            && AnnouncedWraps(record) == Some(opening.expectedWraps)
  {
  }

  lemma AdmittedKeysStep(limits: Limits, g: Group, keys: Option<EpochKeyDelivery>, record: Record, now: Time)
    requires Admits(g, keys, record)
    ensures KeysStep(g, StoreRecord(limits, g, g.currentEpoch, keys, record, |g.records| + 1, now), Stored(record, |g.records| + 1))
  {
    hide Gate, Apply, PruneAfter, OpeningOf, NextRecovery, NextSenderRow;
    if record.isCommit {
      AdmittedCommit(g, keys, record);
      var opening, r := OpeningOf(record, keys).value, Stored(record, |g.records| + 1);
      assert OpensEpoch(r) == OpensEpoch(record) && AnnouncedWraps(r) == AnnouncedWraps(record);
      assert RowOpened(OpenedRow(opening, g.currentEpoch + 1, r.recordId, now), g.currentEpoch + 1, r);
    }
  }

  // ---- what each change keeps ----

  lemma StepKeepsOrder(g: Group, g': Group, r: Record)
    requires Gapless(g) && EpochsOrdered(g) && RowsStep(g, g', r) && CommitsStep(g, g', r)
    ensures Gapless(g') && EpochsOrdered(g')
  {
  }

  lemma StepKeepsClaims(g: Group, g': Group, r: Record)
    requires ClaimsMatch(g) && RowsStep(g, g', r) && ClaimsStep(g, g', r)
    ensures ClaimsMatch(g')
  {
    forall key | key in g'.claims ensures ClaimNames(g', key) {
      if key != KeyOf(r) { assert ClaimNames(g, key); }
    }
  }

  lemma StepKeepsSenders(g: Group, g': Group, r: Record)
    requires SendersMatch(g) && ClaimsStep(g, g', r) && SendersStep(g, g', r)
    ensures SendersMatch(g')
  {
  }

  lemma StepKeepsAccounts(g: Group, g': Group, r: Record)
    requires AccountsMatch(g) && AccountsStep(g, g', r)
    ensures AccountsMatch(g')
  {
    forall s ensures SentBy(g'.records, s) ==
                     if s in g'.senders then (g'.senders[s].recordCount, g'.senders[s].byteCount) else (0, 0)
    {
      assert SentBy(g.records, s) == if s in g.senders then (g.senders[s].recordCount, g.senders[s].byteCount) else (0, 0);
    }
  }

  lemma StepKeepsCommit(g: Group, g': Group, r: Record, e: nat)
    requires RowsStep(g, g', r) && CommitsStep(g, g', r)
    requires e in g.commits && e < g.currentEpoch && CommitNames(g, e) && ClosesEpoch(g, e)
    ensures CommitNames(g', e) && ClosesEpoch(g', e)
  {
    assert g'.commits[e] == g.commits[e];
  }

  lemma StepAddsCommit(g: Group, g': Group, r: Record)
    requires RowsStep(g, g', r) && CommitsStep(g, g', r) && r.isCommit
    ensures CommitNames(g', r.epoch) && ClosesEpoch(g', r.epoch)
  {
  }

  lemma StepKeepsCommits(g: Group, g': Group, r: Record)
    requires CommitsMatch(g) && RowsStep(g, g', r) && CommitsStep(g, g', r)
    ensures CommitsMatch(g')
  {
    forall e: nat | e in g'.commits ensures CommitNames(g', e) && ClosesEpoch(g', e) {
      if e in g.commits { StepKeepsCommit(g, g', r, e); } else { StepAddsCommit(g, g', r); }
    }
    forall i: nat | i < |g'.records| && At(g', i).isCommit
      ensures At(g', i).epoch in g'.commits && g'.commits[At(g', i).epoch].recordId == i + 1
    {
      if i < |g.records| { assert At(g', i) == At(g, i) && At(g, i).epoch in g.commits; }
    }
  }

  lemma StepKeepsPins(g: Group, g': Group, r: Record)
    requires PinsMatch(g) && RowsStep(g, g', r) && PinsStep(g, g', r)
    ensures PinsMatch(g')
  {
    forall i: nat | i < |g'.records| ensures PinAgrees(g', At(g', i)) {
      if i < |g.records| { assert PinAgrees(g, At(g, i)); }
    }
    forall h | h in g'.recovery ensures exists i: nat :: PinnedBy(g', i, h) {
      if h in g.recovery { PinStays(g, g', h); } else { NewPin(g, g', r, h); }
    }
  }

  lemma PinStays(g: Group, g': Group, h: Bytes)
    requires g.records <= g'.records && h in g.recovery && h in g'.recovery && g'.recovery[h] == g.recovery[h]
    requires exists i: nat :: PinnedBy(g, i, h)
    ensures exists i: nat :: PinnedBy(g', i, h)
  {
    var i: nat :| PinnedBy(g, i, h);
    assert forall k: nat :: k <= i ==> At(g', k) == At(g, k);
    assert PinnedBy(g', i, h);
  }

  lemma NewPin(g: Group, g': Group, r: Record, h: Bytes)
    requires PinsMatch(g) && RowsStep(g, g', r) && PinsStep(g, g', r) && h in g'.recovery && h !in g.recovery
    ensures PinnedBy(g', |g.records|, h)
  {
    forall k: nat | k < |g.records| && RecoveryTagOf(At(g', k)).Some? ensures RecoveryTagOf(At(g', k)).value.handle != h {
      assert PinAgrees(g, At(g, k));
    }
  }

  lemma StepKeepsKeys(g: Group, g': Group, r: Record)
    requires CommitsMatch(g) && KeysMatch(g)
    requires r.epoch == g.currentEpoch && CommitsStep(g, g', r) && KeysStep(g, g', r)
    ensures KeysMatch(g')
  {
    hide EpochRowMatches, RowRetired, RowOpened, CommitsMatch;
    forall e: nat | e in g'.epochs ensures EpochRowMatches(g', e) {
      if e in g.epochs { OldEpochStep(g, g', r, e); } else { NewEpochStep(g, g', r); }
    }
  }

  lemma OldEpochStep(g: Group, g': Group, r: Record, e: nat)
    requires CommitsMatch(g) && KeysMatch(g) && e in g.epochs
    requires r.epoch == g.currentEpoch && CommitsStep(g, g', r) && KeysStep(g, g', r)
    ensures EpochRowMatches(g', e)
  {
    assert EpochRowMatches(g, e);
    if r.isCommit { assert RowRetired(g.epochs[e], g'.epochs[e], e < g.currentEpoch); }
  }

  lemma NewEpochStep(g: Group, g': Group, r: Record)
    requires r.isCommit && r.epoch == g.currentEpoch && CommitsStep(g, g', r) && KeysStep(g, g', r)
    ensures EpochRowMatches(g', g.currentEpoch + 1)
  {
  }

  /** A marker already standing before `limit` still does once the log and the commits have grown. */
  lemma MarkerPersists(g: Group, g': Group, e: nat, limit: nat, limit': nat)
    requires limit <= |g.records| && limit <= limit' <= |g'.records|
    requires forall i: nat :: i < |g.records| ==> i < |g'.records| && At(g', i) == At(g, i)
    requires forall c: nat :: c in g.commits ==> c in g'.commits && g'.commits[c] == g.commits[c]
    requires MarkerBefore(g, e, limit)
    ensures MarkerBefore(g', e, limit')
  {
    var j: nat :| g.commits[e - 1].recordId <= j < limit && IsMarkerOf(At(g, j), e, AnnouncedWraps(g.commits[e - 1].record));
    assert At(g', j) == At(g, j);
  }

  lemma StepKeepsCommitRows(g: Group, g': Group, r: Record)
    requires CommitsMatch(g) && r.epoch == g.currentEpoch && CommitsStep(g, g', r)
    ensures forall c: nat :: c in g.commits ==> c in g'.commits && g'.commits[c] == g.commits[c]
  {
  }

  lemma StepKeepsMarker(g: Group, g': Group, r: Record, e: nat, limit: nat)
    requires CommitsMatch(g) && RowsStep(g, g', r) && CommitsStep(g, g', r)
    requires limit <= |g.records| && MarkerBefore(g, e, limit)
    ensures MarkerBefore(g', e, limit) && MarkerBefore(g', e, |g'.records|)
  {
    StepKeepsCommitRows(g, g', r);
    MarkerPersists(g, g', e, limit, limit);
    MarkerPersists(g, g', e, limit, |g'.records|);
  }

  /** A commit leaves no marker after it; any other record leaves the marker that stood, or is it. */
  lemma StepLeavesMarker(g: Group, g': Group, r: Record)
    requires CommitsMatch(g) && KeysMatch(g) && MarkersMatch(g)
    requires RowsStep(g, g', r) && CommitsStep(g, g', r) && MarkersStep(g, g', r)
    ensures g'.epochComplete <==> MarkerBefore(g', g'.currentEpoch, |g'.records|)
  {
    if r.isCommit { CommitHasNoMarker(g, g', r); } else { RecordLeavesMarker(g, g', r); }
  }

  lemma CommitHasNoMarker(g: Group, g': Group, r: Record)
    requires RowsStep(g, g', r) && CommitsStep(g, g', r) && r.isCommit
    ensures !MarkerBefore(g', g'.currentEpoch, |g'.records|)
  {
  }

  lemma RecordLeavesMarker(g: Group, g': Group, r: Record)
    requires CommitsMatch(g) && KeysMatch(g) && MarkersMatch(g) && !r.isCommit
    requires RowsStep(g, g', r) && CommitsStep(g, g', r) && MarkersStep(g, g', r)
    ensures g'.epochComplete <==> MarkerBefore(g', g'.currentEpoch, |g'.records|)
  {
    var n: nat, e := |g.records|, g.currentEpoch;
    CurrentMarker(g, r);
    if g.epochComplete { StepKeepsMarker(g, g', r, e, n); }
    if MarksCurrent(g, r) { MarkerIsNew(g, g', r); }
    hide KeysMatch;
    if MarkerBefore(g', e, n + 1) { StepHadMarker(g, g', r); }
  }

  /** The current epoch's row holds the count its commit announced. */
  lemma CurrentMarker(g: Group, r: Record)
    requires KeysMatch(g)
    ensures 1 <= g.currentEpoch && g.currentEpoch - 1 in g.commits
    ensures MarksCurrent(g, r) <==> IsMarkerOf(r, g.currentEpoch, AnnouncedWraps(g.commits[g.currentEpoch - 1].record))
  {
    assert EpochRowMatches(g, g.currentEpoch);
  }

  lemma MarkerIsNew(g: Group, g': Group, r: Record)
    requires CommitsMatch(g) && RowsStep(g, g', r) && CommitsStep(g, g', r) && !r.isCommit
    requires 1 <= g.currentEpoch && g.currentEpoch - 1 in g.commits
    requires IsMarkerOf(r, g.currentEpoch, AnnouncedWraps(g.commits[g.currentEpoch - 1].record))
    ensures MarkerBefore(g', g.currentEpoch, |g'.records|)
  {
    assert CommitNames(g, g.currentEpoch - 1);
    assert IsMarkerOf(At(g', |g.records|), g.currentEpoch, AnnouncedWraps(g'.commits[g.currentEpoch - 1].record));
  }

  lemma StepHadMarker(g: Group, g': Group, r: Record)
    requires RowsStep(g, g', r) && CommitsStep(g, g', r) && !r.isCommit && MarkerBefore(g', g.currentEpoch, |g.records| + 1)
    ensures MarkerBefore(g, g.currentEpoch, |g.records|)
            || IsMarkerOf(r, g.currentEpoch, AnnouncedWraps(g.commits[g.currentEpoch - 1].record))
  {
    var e := g.currentEpoch;
    var j: nat :| g'.commits[e - 1].recordId <= j < |g.records| + 1 && IsMarkerOf(At(g', j), e, AnnouncedWraps(g'.commits[e - 1].record));
    if j < |g.records| { assert At(g', j) == At(g, j); }
  }

  lemma StepKeepsMarkers(g: Group, g': Group, r: Record)
    requires CommitsMatch(g) && KeysMatch(g) && MarkersMatch(g)
    requires RowsStep(g, g', r) && CommitsStep(g, g', r) && MarkersStep(g, g', r)
    ensures MarkersMatch(g')
  {
    hide KeysMatch, MarkerBefore, CommitsMatch, CommitsStep;
    forall i: nat | i < |g'.records| && 1 <= At(g', i).epoch && !ExemptFromEpochComplete(At(g', i))
      ensures MarkerBefore(g', At(g', i).epoch, i)
    {
      if i < |g.records| {
        StepKeepsMarker(g, g', r, At(g, i).epoch, i);
      } else {
        StepKeepsMarker(g, g', r, g.currentEpoch, i);
      }
    }
    StepLeavesMarker(g, g', r);
  }

  /** Storing a record the gates admit keeps the whole shape. */
  lemma StoreKeepsShape(limits: Limits, g: Group, keys: Option<EpochKeyDelivery>, record: Record, now: Time)
    requires LogShape(g) && Admits(g, keys, record)
    ensures LogShape(StoreRecord(limits, g, g.currentEpoch, keys, record, |g.records| + 1, now))
  {
    var g', r := StoreRecord(limits, g, g.currentEpoch, keys, record, |g.records| + 1, now), Stored(record, |g.records| + 1);
    AdmittedRowsStep(limits, g, keys, record, now);
    AdmittedPinsStep(limits, g, keys, record, now);
    AdmittedCommitsStep(limits, g, keys, record, now);
    AdmittedKeysStep(limits, g, keys, record, now);
    StoredAccountsStep(limits, g, keys, record, now);
    hide StoreRecord, Admits;
    StepKeepsAll(g, g', r);
  }

  lemma StepKeepsAll(g: Group, g': Group, r: Record)
    requires LogShape(g)
    requires RowsStep(g, g', r) && ClaimsStep(g, g', r) && SendersStep(g, g', r) && PinsStep(g, g', r)
    requires CommitsStep(g, g', r) && MarkersStep(g, g', r) && KeysStep(g, g', r) && AccountsStep(g, g', r)
    ensures LogShape(g')
  {
    StepKeepsAccounts(g, g', r);
    StepKeepsOrder(g, g', r);
    StepKeepsClaims(g, g', r);
    StepKeepsSenders(g, g', r);
    StepKeepsCommits(g, g', r);
    StepKeepsPins(g, g', r);
    StepKeepsKeys(g, g', r);
    StepKeepsMarkers(g, g', r);
  }

  // ---- the id counter and the closed flag are no part of the shape ----

  ghost predicate SameRows(g: Group, g': Group) {
    g' == g.(nextRecordId := g'.nextRecordId, closed := g'.closed)
  }

  lemma SameRowsSameNames(g: Group, g': Group)
    requires SameRows(g, g') && Gapless(g) && EpochsOrdered(g) && ClaimsMatch(g) && PinsMatch(g)
    ensures Gapless(g') && EpochsOrdered(g') && ClaimsMatch(g') && PinsMatch(g')
  {
    assert forall i: nat :: i < |g.records| ==> At(g', i) == At(g, i);
    forall key | key in g.claims ensures ClaimNames(g', key) { assert ClaimNames(g, key); }
    forall i: nat | i < |g.records| ensures PinAgrees(g', At(g', i)) { assert PinAgrees(g, At(g, i)); }
    forall h | h in g'.recovery ensures exists i: nat :: PinnedBy(g', i, h) { PinStays(g, g', h); }
  }

  lemma SameRowsSameEpochs(g: Group, g': Group)
    requires SameRows(g, g') && CommitsMatch(g) && KeysMatch(g)
    ensures CommitsMatch(g') && KeysMatch(g')
  {
    assert forall i: nat :: i < |g.records| ==> At(g', i) == At(g, i);
    forall e: nat | e in g.commits ensures CommitNames(g', e) && ClosesEpoch(g', e) {
      assert CommitNames(g, e) && ClosesEpoch(g, e);
    }
    forall e: nat | e in g.epochs ensures EpochRowMatches(g', e) { assert EpochRowMatches(g, e); }
  }

  lemma SameRowsSameMarkers(g: Group, g': Group)
    requires SameRows(g, g') && MarkersMatch(g)
    ensures MarkersMatch(g')
  {
    assert forall i: nat :: i < |g.records| ==> At(g', i) == At(g, i);
    if g.epochComplete { MarkerPersists(g, g', g.currentEpoch, |g.records|, |g.records|); }
    if MarkerBefore(g', g.currentEpoch, |g.records|) { MarkerPersists(g', g, g.currentEpoch, |g.records|, |g.records|); }
    forall i: nat | i < |g.records| && 1 <= At(g, i).epoch && !ExemptFromEpochComplete(At(g, i))
      ensures MarkerBefore(g', At(g, i).epoch, i)
    {
      MarkerPersists(g, g', At(g, i).epoch, i, i);
    }
  }

  lemma SameRowsSameShape(g: Group, g': Group)
    requires SameRows(g, g') && LogShape(g)
    ensures LogShape(g')
  {
    SameRowsSameNames(g, g');
    SameRowsSameEpochs(g, g');
    SameRowsSameMarkers(g, g');
  }
}
