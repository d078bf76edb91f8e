/**
 A whole batch: gating every record up front against rows the batch has not yet been given is the
 same as gating each record against what the earlier ones leave behind, so a batch that passes
 keeps the log's shape and the ids it allocates are exactly the rows it writes.
 */
module GroupBatch {
  import opened Common
  import opened Records
  import opened GroupTransaction
  import opened GroupLog

  /**
   `later` is `g` with some records of the batch written; the batch's own high waters and pins say,
   of `g`, what `later` says of itself.
   */
  ghost predicate Overlays(g: Group, highWater: map<Bytes, nat>, pinned: map<Bytes, Bytes>, later: Group) {
    && later.commits == g.commits
    && later.currentEpoch == g.currentEpoch
    && (g.epochComplete ==> later.epochComplete)
    && (forall s :: LastIndex(g.senders, highWater, s) == LastIndex(later.senders, map[], s))
    && (forall h :: PinOf(g.recovery, pinned, h) == PinOf(later.recovery, map[], h))
  }

  /**
   Under the overlay the up-front gate answers exactly what the gate would answer against the rows
   already written, but for one thing: it still reads the marker as `g` had it, so that a marker
   cannot open the group for a record of its own batch.
   */
  lemma GateUnderOverlay(g: Group, record: Record, keys: Option<EpochKeyDelivery>,
                         highWater: map<Bytes, nat>, pinned: map<Bytes, Bytes>, later: Group)
    requires Overlays(g, highWater, pinned, later)
    ensures Gate(g, StateOf(g), record, keys, highWater, pinned)
         == Gate(later, StateOf(later).(epochComplete := g.epochComplete), record, keys, map[], map[])
    ensures Gate(g, StateOf(g), record, keys, highWater, pinned) == ReasonOk ==> Admits(later, keys, record)
    ensures later.currentEpoch == g.currentEpoch
  {
    assert LastIndex(g.senders, highWater, record.sender) == LastIndex(later.senders, map[], record.sender);
    if RecoveryTagOf(record).Some? {
      var h := RecoveryTagOf(record).value.handle;
      assert PinOf(g.recovery, pinned, h) == PinOf(later.recovery, map[], h);
    }
  }

  /** Writing a gated record and noting it in the batch's maps keeps the overlay. */
  lemma OverlayStep(limits: Limits, g: Group, record: Record, keys: Option<EpochKeyDelivery>, recordId: nat,
                    highWater: map<Bytes, nat>, pinned: map<Bytes, Bytes>, later: Group, now: Time)
    requires Overlays(g, highWater, pinned, later) && !record.isCommit
    requires Gate(g, StateOf(g), record, keys, highWater, pinned) == ReasonOk
    ensures Overlays(g, NoteHighWater(highWater, record), NotePin(pinned, record),
                     StoreRecord(limits, later, g.currentEpoch, keys, record, recordId, now))
  {
    var later' := StoreRecord(limits, later, g.currentEpoch, keys, record, recordId, now);
    forall s ensures LastIndex(g.senders, NoteHighWater(highWater, record), s) == LastIndex(later'.senders, map[], s) {
      assert LastIndex(g.senders, highWater, s) == LastIndex(later.senders, map[], s);
    }
    forall h ensures PinOf(g.recovery, NotePin(pinned, record), h) == PinOf(later'.recovery, map[], h) {
      assert PinOf(g.recovery, pinned, h) == PinOf(later.recovery, map[], h);
    }
  }

  /** The commit rule of a submission: a batch holding a commit holds that record and no other. */
  ghost predicate CommitAlone(batch: seq<Record>) {
    forall i :: 0 <= i < |batch| && batch[i].isCommit ==> |batch| == 1
  }

  /** A batch that passed its gates is written whole, each record admitted where it is written. */
  lemma {:induction false} StoreFromKeepsShape(
    limits: Limits, g: Group, keys: Option<EpochKeyDelivery>, batch: seq<Record>, outcomes: seq<Probe>, next: nat,
    highWater: map<Bytes, nat>, pinned: map<Bytes, Bytes>, later: Group, now: Time)
    requires |outcomes| == |batch| && next <= |batch| && CommitAlone(batch)
    requires GateFrom(g, StateOf(g), batch, outcomes, keys, next, highWater, pinned) == Passed
    requires LogShape(later) && (next < |batch| ==> Overlays(g, highWater, pinned, later))
    ensures LogShape(StoreFrom(limits, later, g.currentEpoch, keys, batch, outcomes, next, |later.records| + 1, now))
    decreases |batch| - next
  {
    hide LogShape, StoreRecord, Gate, Overlays;
    if next == |batch| {
    } else if outcomes[next] != Absent {
      StoreFromKeepsShape(limits, g, keys, batch, outcomes, next + 1, highWater, pinned, later, now);
    } else {
      var record := batch[next];
      GateUnderOverlay(g, record, keys, highWater, pinned, later);
      StoreKeepsShape(limits, later, keys, record, now);
      StoreAppends(limits, later, g.currentEpoch, keys, record, |later.records| + 1, now);
      var later' := StoreRecord(limits, later, g.currentEpoch, keys, record, |later.records| + 1, now);
      if next + 1 < |batch| { OverlayStep(limits, g, record, keys, |later.records| + 1, highWater, pinned, later, now); }
      StoreFromKeepsShape(limits, g, keys, batch, outcomes, next + 1,
                          NoteHighWater(highWater, record), NotePin(pinned, record), later', now);
    }
  }

  lemma StoreAppends(limits: Limits, g: Group, epoch: nat, keys: Option<EpochKeyDelivery>, record: Record, recordId: nat, now: Time)
    ensures var g' := StoreRecord(limits, g, epoch, keys, record, recordId, now);
            && g'.nextRecordId == g.nextRecordId && g'.closed == g.closed
            && |g'.records| == |g.records| + 1 && g.records <= g'.records
  {
  }

  /** One row per unsettled record, and the id counter left where the allocation put it. */
  lemma {:induction false} StoreFromAllocates(
    limits: Limits, g: Group, epoch: nat, keys: Option<EpochKeyDelivery>, batch: seq<Record>, outcomes: seq<Probe>,
    next: nat, recordId: nat, now: Time)
    requires |outcomes| == |batch| && next <= |batch|
    ensures var g' := StoreFrom(limits, g, epoch, keys, batch, outcomes, next, recordId, now);
            && g'.nextRecordId == g.nextRecordId
            && g'.closed == g.closed
            && |g'.records| == |g.records| + CountAbsent(outcomes, |batch|) - CountAbsent(outcomes, next)
            && g.records <= g'.records
    decreases |batch| - next
  {
    hide StoreRecord;
    if next == |batch| {
    } else if outcomes[next] != Absent {
      StoreFromAllocates(limits, g, epoch, keys, batch, outcomes, next + 1, recordId, now);
    } else {
      var g1 := StoreRecord(limits, g, epoch, keys, batch[next], recordId, now);
      StoreAppends(limits, g, epoch, keys, batch[next], recordId, now);
      StoreFromAllocates(limits, g1, epoch, keys, batch, outcomes, next + 1, recordId + 1, now);
    }
  }

  /** Each id a commit allocates is some unsettled record's. */
  lemma {:induction false} AllocatedToSome(outcomes: seq<Probe>, n: nat, j: nat) returns (i: nat)
    requires n <= |outcomes| && j < CountAbsent(outcomes, n)
    ensures i < n && outcomes[i] == Absent && CountAbsent(outcomes, i) == j
  {
    if outcomes[n - 1] == Absent && CountAbsent(outcomes, n - 1) == j {
      i := n - 1;
    } else {
      i := AllocatedToSome(outcomes, n - 1, j);
    }
  }

  ghost predicate Gated(g: Group, batch: seq<Record>, outcomes: seq<Probe>, keys: Option<EpochKeyDelivery>)
    requires |outcomes| == |batch|
  {
    GateFrom(g, StateOf(g), batch, outcomes, keys, 0, map[], map[]) == Passed
  }

  lemma OverlayStart(g: Group, count: nat)
    ensures Overlays(g, map[], map[], Allocate(g, count))
  {
  }

  lemma NoneCounted(outcomes: seq<Probe>)
    ensures CountAbsent(outcomes, 0) == 0
  {
  }

  /** The transaction's write keeps the log invariant: gapless ids and every row tied to the log. */
  lemma {:induction false} CommitBatchKeepsInv(limits: Limits, g: Group, keys: Option<EpochKeyDelivery>, batch: seq<Record>,
                            outcomes: seq<Probe>, now: Time)
    requires GroupInv(g) && |outcomes| == |batch| && CommitAlone(batch) && Gated(g, batch, outcomes, keys)
    ensures GroupInv(CommitBatch(limits, g, g.currentEpoch, keys, batch, outcomes, now))
  {
    hide LogShape, Overlays, GateFrom, StoreFrom, CountAbsent;
    var count := CountAbsent(outcomes, |batch|);
    var bumped := Allocate(g, count);
    NoneCounted(outcomes);
    SameRowsSameShape(g, bumped);
    OverlayStart(g, count);
    StoreFromKeepsShape(limits, g, keys, batch, outcomes, 0, map[], map[], bumped, now);
    StoreFromAllocates(limits, bumped, g.currentEpoch, keys, batch, outcomes, 0, g.nextRecordId, now);
  }

  // ---- what is written stays written ----

  /** `later` holds every row `g` holds, unchanged: the log grew at its end and nothing was overwritten. */
  ghost predicate Extends(g: Group, later: Group) {
    && g.records <= later.records
    && (forall key :: key in g.claims ==> key in later.claims && later.claims[key] == g.claims[key])
    && (forall e :: e in g.commits ==> e in later.commits && later.commits[e] == g.commits[e])
    && (forall h :: h in g.recovery ==> h in later.recovery && later.recovery[h] == g.recovery[h])
    && g.currentEpoch <= later.currentEpoch
    && (g.closed ==> later.closed)
  }

  /** The claim a record was accepted under, or is recognised by: its id and its content. */
  ghost predicate ClaimedAs(g: Group, record: Record, recordId: int) {
    && KeyOf(record) in g.claims
    && g.claims[KeyOf(record)].recordId == recordId
    && SameContent(g.claims[KeyOf(record)], record)
  }

  lemma ExtendsItself(g: Group)
    ensures Extends(g, g)
  {
  }

  lemma ExtendsTransitive(a: Group, b: Group, c: Group)
    requires Extends(a, b) && Extends(b, c)
    ensures Extends(a, c)
  {
  }

  lemma ClaimPersists(g: Group, later: Group, record: Record, recordId: int)
    requires Extends(g, later) && ClaimedAs(g, record, recordId)
    ensures ClaimedAs(later, record, recordId)
  {
  }

  lemma StepExtends(g: Group, g': Group, r: Record)
    requires CommitsMatch(g) && g.records <= g'.records && g'.closed == g.closed
    requires RowsStep(g, g', r) && ClaimsStep(g, g', r) && PinsStep(g, g', r) && CommitsStep(g, g', r)
    ensures Extends(g, g') && ClaimedAs(g', r, r.recordId)
  {
    StepKeepsCommitRows(g, g', r);
  }

  lemma StoreExtends(limits: Limits, g: Group, keys: Option<EpochKeyDelivery>, record: Record, now: Time)
    requires LogShape(g) && Admits(g, keys, record)
    ensures var g' := StoreRecord(limits, g, g.currentEpoch, keys, record, |g.records| + 1, now);
            Extends(g, g') && ClaimedAs(g', record, |g.records| + 1)
  {
    hide StoreRecord, Admits, SendersMatch, CommitsMatch, Extends;
    hide RowsStep, ClaimsStep, PinsStep, CommitsStep;
    var g', r := StoreRecord(limits, g, g.currentEpoch, keys, record, |g.records| + 1, now), Stored(record, |g.records| + 1);
    AdmittedRowsStep(limits, g, keys, record, now);
    AdmittedPinsStep(limits, g, keys, record, now);
    AdmittedCommitsStep(limits, g, keys, record, now);
    StoreAppends(limits, g, g.currentEpoch, keys, record, |g.records| + 1, now);
    StepExtends(g, g', r);
  }

  /** A written batch claims each of its records under the id allocated to it, and overwrites nothing. */
  lemma {:induction false} StoreFromClaims(
    limits: Limits, g: Group, keys: Option<EpochKeyDelivery>, batch: seq<Record>, outcomes: seq<Probe>, next: nat,
    highWater: map<Bytes, nat>, pinned: map<Bytes, Bytes>, later: Group, now: Time)
    requires |outcomes| == |batch| && next <= |batch| && CommitAlone(batch)
    requires GateFrom(g, StateOf(g), batch, outcomes, keys, next, highWater, pinned) == Passed
    requires LogShape(later) && (next < |batch| ==> Overlays(g, highWater, pinned, later))
    ensures var done := StoreFrom(limits, later, g.currentEpoch, keys, batch, outcomes, next, |later.records| + 1, now);
            && Extends(later, done)
            && forall i :: next <= i < |batch| && outcomes[i] == Absent ==>
                 ClaimedAs(done, batch[i], |later.records| + 1 + CountAbsent(outcomes, i) - CountAbsent(outcomes, next))
    decreases |batch| - next
  {
    hide LogShape, StoreRecord, Gate, Overlays, Extends, ClaimedAs;
    if next == |batch| {
      ExtendsItself(later);
    } else if outcomes[next] != Absent {
      StoreFromClaims(limits, g, keys, batch, outcomes, next + 1, highWater, pinned, later, now);
    } else {
      var record := batch[next];
      GateUnderOverlay(g, record, keys, highWater, pinned, later);
      StoreKeepsShape(limits, later, keys, record, now);
      StoreExtends(limits, later, keys, record, now);
      StoreAppends(limits, later, g.currentEpoch, keys, record, |later.records| + 1, now);
      var later' := StoreRecord(limits, later, g.currentEpoch, keys, record, |later.records| + 1, now);
      if next + 1 < |batch| { OverlayStep(limits, g, record, keys, |later.records| + 1, highWater, pinned, later, now); }
      StoreFromClaims(limits, g, keys, batch, outcomes, next + 1,
                      NoteHighWater(highWater, record), NotePin(pinned, record), later', now);
      var done := StoreFrom(limits, later, g.currentEpoch, keys, batch, outcomes, next, |later.records| + 1, now);
      ExtendsTransitive(later, later', done);
      ClaimPersists(later', done, record, |later.records| + 1);
    }
  }

  lemma ExtendsFromBumped(g: Group, count: nat, later: Group)
    requires Extends(Allocate(g, count), later)
    ensures Extends(g, later)
  {
  }

  /** The write of a gated batch, as the rest of the system sees it. */
  lemma {:induction false} CommitBatchExtends(limits: Limits, g: Group, keys: Option<EpochKeyDelivery>, batch: seq<Record>,
                           outcomes: seq<Probe>, now: Time)
    requires GroupInv(g) && |outcomes| == |batch| && CommitAlone(batch) && Gated(g, batch, outcomes, keys)
    ensures var g' := CommitBatch(limits, g, g.currentEpoch, keys, batch, outcomes, now);
            && Extends(g, g')
            && g'.closed == g.closed
            && forall i :: 0 <= i < |batch| && outcomes[i] == Absent ==>
                 ClaimedAs(g', batch[i], g.nextRecordId + CountAbsent(outcomes, i))
  {
    hide LogShape, Overlays, StoreFrom, Extends, ClaimedAs, GateFrom;
    var count := CountAbsent(outcomes, |batch|);
    var bumped := Allocate(g, count);
    SameRowsSameShape(g, bumped);
    OverlayStart(g, count);
    StoreFromClaims(limits, g, keys, batch, outcomes, 0, map[], map[], bumped, now);
    var g' := CommitBatch(limits, g, g.currentEpoch, keys, batch, outcomes, now);
    ExtendsFromBumped(g, count, g');
    StoreFromAllocates(limits, bumped, g.currentEpoch, keys, batch, outcomes, 0, g.nextRecordId, now);
  }
}
