/**
 What each epoch of a group was opened with, written down beside a run as its commits are answered:
 the keys the server hands out, when each was installed and retired, and the policy each row was
 stored under, are those.
 */
module EpochCustody {
  import opened Common
  import opened Records
  import opened GroupTransaction
  import opened GroupLog
  import opened GroupBatch
  import opened GroupRuns
  import opened GroupTheorems
  import opened GroupAnswers

  /** One epoch as it was opened: its keys, by which record, and when. */
  datatype Opened = Opened(writeKey: Bytes, readKey: Bytes, algId: nat, recordId: nat, at: Time)

  type Book = map<nat, Opened>

  /** The keys inside the commit's attachment, or under the digest kind those that came beside it. */
  function OpenedBy(record: Record, keys: Option<EpochKeyDelivery>, recordId: nat, now: Time): Opened {
    if HasKind(record, AttachmentEpoch) && record.attachment.value.epoch.Some? then
      var a := record.attachment.value.epoch.value;
      Opened(a.writeKey, a.readKey, a.algId, recordId, now)
    else if HasKind(record, AttachmentEpochDigest) && record.attachment.value.epochDigest.Some? && keys.Some? then
      Opened(keys.value.writeKey, keys.value.readKey, record.attachment.value.epochDigest.value.algId, recordId, now)
    else Opened([], [], 0, recordId, now)
  }

  /** A step that moves the group to its next epoch writes down the commit that did. */
  function Note(limits: Limits, s: System, book: Book, e: Event): Book
    requires Enabled(s, e)
  {
    if e.CommitCall? && s.group.currentEpoch < Step(limits, s, e).group.currentEpoch && s.calls[e.t].request.records != [] then
      book[s.group.currentEpoch + 1 :=
           OpenedBy(s.calls[e.t].request.records[0], s.calls[e.t].request.keys, |s.group.records| + 1, e.now)]
    else book
  }

  /** Epoch 0 has the bootstrap key, and the founding commit opens epoch 1. */
  function FirstBook(request: CreateRequest, now: Time): Book {
    map[0 := Opened(request.bootstrapWriteKey, [], 0, 0, now), 1 := OpenedBy(request.initialCommit, request.keys, 1, now)]
  }

  // ---- what the rows say ----

  /** An epoch's row is what it was opened with, less the write key two epochs on, and stamped when the next opened. */
  ghost predicate RowKept(row: EpochRow, e: nat, current: nat, entry: Opened, next: Option<Opened>) {
    && row.epoch == e && row.algId == entry.algId && row.openedByRecord == entry.recordId && row.acceptTime == entry.at
    && row.writeKey == (if current <= e + 1 then Some(entry.writeKey) else None)
    && row.readKey == (if e == 0 then None else Some(entry.readKey))
    && row.readKeyInstall == (if e == 0 then None else Some(entry.at))
    && row.retireTime == (if next.Some? then Some(next.value.at) else None)
  }

  function NextIn(book: Book, e: nat): Option<Opened> {
    if e + 1 in book then Some(book[e + 1]) else None
  }

  ghost predicate KeysKept(epochs: map<nat, EpochRow>, current: nat, book: Book) {
    && (forall e: nat :: e in book <==> e <= current)
    && (forall e: nat :: e in epochs <==> e <= current)
    && (forall e: nat :: e in epochs && e in book ==> RowKept(epochs[e], e, current, book[e], NextIn(book, e)))
  }

  lemma OpeningIsWrittenDown(record: Record, epoch: nat, keys: Option<EpochKeyDelivery>, recordId: nat, now: Time)
    requires OpensNext(record, epoch, keys)
    ensures OpeningOf(record, keys).Some?
    ensures var opening, entry := OpeningOf(record, keys).value, OpenedBy(record, keys, recordId, now);
            && opening.writeKey == entry.writeKey && opening.readKey == entry.readKey && opening.algId == entry.algId
  {
  }

  lemma OpeningKeepsKeys(epochs: map<nat, EpochRow>, current: nat, book: Book, opening: EpochOpening, entry: Opened)
    requires KeysKept(epochs, current, book)
    requires opening.writeKey == entry.writeKey && opening.readKey == entry.readKey && opening.algId == entry.algId
    ensures KeysKept(RetireKeys(epochs[current + 1 := OpenedRow(opening, current + 1, entry.recordId, entry.at)], current, entry.at),
                     current + 1, book[current + 1 := entry])
  {
    var epochs' := RetireKeys(epochs[current + 1 := OpenedRow(opening, current + 1, entry.recordId, entry.at)], current, entry.at);
    var book' := book[current + 1 := entry];
    hide RowKept, RetireKeys, NextIn, OpenedRow;
    SameEpochs(epochs, current, opening, entry);
    forall e: nat | e in epochs' && e in book' ensures RowKept(epochs'[e], e, current + 1, book'[e], NextIn(book', e)) {
      RowStillKept(epochs, current, book, opening, entry, e);
    }
  }

  lemma SameEpochs(epochs: map<nat, EpochRow>, current: nat, opening: EpochOpening, entry: Opened)
    ensures RetireKeys(epochs[current + 1 := OpenedRow(opening, current + 1, entry.recordId, entry.at)], current, entry.at).Keys
         == epochs.Keys + {current + 1}
  {
  }

  lemma RowStillKept(epochs: map<nat, EpochRow>, current: nat, book: Book, opening: EpochOpening, entry: Opened, e: nat)
    requires KeysKept(epochs, current, book) && e <= current + 1
    requires opening.writeKey == entry.writeKey && opening.readKey == entry.readKey && opening.algId == entry.algId
    ensures var epochs' := RetireKeys(epochs[current + 1 := OpenedRow(opening, current + 1, entry.recordId, entry.at)], current, entry.at);
            var book' := book[current + 1 := entry];
            e in epochs' && RowKept(epochs'[e], e, current + 1, book'[e], NextIn(book', e))
  {
    hide RowKept;
    if e <= current {
      assert RowKept(epochs[e], e, current, book[e], NextIn(book, e));
      RetiredRowKept(epochs[e], e, current, book[e], NextIn(book, e), entry);
    } else {
      OpenedRowKept(opening, entry, current + 1);
    }
  }

  lemma RetiredRowKept(row: EpochRow, e: nat, current: nat, own: Opened, next: Option<Opened>, entry: Opened)
    requires RowKept(row, e, current, own, next) && e <= current && (next.Some? <==> e < current)
    ensures var row' := if e < current then row.(writeKey := None)
                        else if row.writeKey.Some? then row.(retireTime := Some(entry.at)) else row;
            RowKept(row', e, current + 1, own, if e == current then Some(entry) else next)
  {
  }

  lemma OpenedRowKept(opening: EpochOpening, entry: Opened, e: nat)
    requires opening.writeKey == entry.writeKey && opening.readKey == entry.readKey && opening.algId == entry.algId && 1 <= e
    ensures RowKept(OpenedRow(opening, e, entry.recordId, entry.at), e, e, entry, None)
  {
  }

  // ---- a commit of the run ----

  lemma {:induction false} CommittedEpochRows(limits: Limits, g: Group, keys: Option<EpochKeyDelivery>, batch: seq<Record>, outcomes: seq<Probe>, now: Time)
    requires |outcomes| == |batch| == 1 && outcomes[0] == Absent && batch[0].isCommit && OpeningOf(batch[0], keys).Some?
    requires g.nextRecordId == |g.records| + 1
    ensures var g' := CommitBatch(limits, g, g.currentEpoch, keys, batch, outcomes, now);
            && g'.currentEpoch == g.currentEpoch + 1
            && g'.epochs == RetireKeys(g.epochs[g.currentEpoch + 1 :=
                              OpenedRow(OpeningOf(batch[0], keys).value, g.currentEpoch + 1, |g.records| + 1, now)], g.currentEpoch, now)
  {
    hide OpeningOf, Apply, PruneAfter, NextRecovery, NextSenderRow, RetireKeys, OpenedRow;
    assert CountAbsent(outcomes, 1) == 1;
    var bumped := Allocate(g, 1);
    var g1 := StoreRecord(limits, bumped, g.currentEpoch, keys, batch[0], g.nextRecordId, now);
    assert StoreFrom(limits, g1, g.currentEpoch, keys, batch, outcomes, 1, g.nextRecordId + 1, now) == g1;
    assert CommitBatch(limits, g, g.currentEpoch, keys, batch, outcomes, now) == g1;
  }

  lemma {:induction false} PlainCommitKeepsEpochs(limits: Limits, g: Group, keys: Option<EpochKeyDelivery>, batch: seq<Record>, outcomes: seq<Probe>, now: Time)
    requires |outcomes| == |batch| && !HasCommit(batch) && g.nextRecordId == |g.records| + 1
    ensures SamePolicy(g, CommitBatch(limits, g, g.currentEpoch, keys, batch, outcomes, now))
  {
    hide StoreFrom;
    PlainBatch(limits, Allocate(g, CountAbsent(outcomes, |batch|)), g.currentEpoch, keys, batch, outcomes, 0, now, 0);
  }

  /** What a call that commits is sure of: the batch is written, and a commit is alone, unsettled and opens the next epoch. */
  lemma CommitsWhatMayBeWritten(limits: Limits, s: System, t: nat, now: Time)
    requires SystemInv(s) && Enabled(s, CommitCall(t, now))
    ensures var request, outcomes := s.calls[t].request, s.calls[t].phase.outcomes;
            && Step(limits, s, CommitCall(t, now)).group
               == CommitBatch(limits, s.group, s.group.currentEpoch, request.keys, request.records, outcomes, now)
            && s.group.nextRecordId == |s.group.records| + 1
            && (HasCommit(request.records) ==>
                  && |request.records| == 1 && outcomes[0] == Absent && request.records[0].isCommit
                  && OpensNext(request.records[0], s.group.currentEpoch, request.keys))
  {
    hide GroupInv, LockSound, ReaderSound, GateFrom, CommitBatch, CommittedResults, ProbeSound, OpensNext, Reached, Taken, MarkerStands;
    var call := s.calls[t];
    assert CallSound(s.group, call);
    NextIsAfterTheRows(s.group);
    BatchIsGated(s.group, call.request, call.phase.outcomes);
    GatedCommitHasNotLost(s.group, call.request, call.phase);
    if HasCommit(call.request.records) { assert !Fails(s.group, call.request, call.phase.outcomes, 0); }
  }

  lemma CommitKeepsKeys(limits: Limits, s: System, book: Book, t: nat, now: Time)
    requires SystemInv(s) && Enabled(s, CommitCall(t, now)) && KeysKept(s.group.epochs, s.group.currentEpoch, book)
    ensures var g' := Step(limits, s, CommitCall(t, now)).group;
            KeysKept(g'.epochs, g'.currentEpoch, Note(limits, s, book, CommitCall(t, now)))
  {
    hide SystemInv, Step, KeysKept, CommitBatch, OpensNext, OpeningOf, OpenedBy;
    CommitsWhatMayBeWritten(limits, s, t, now);
    var g, request, outcomes := s.group, s.calls[t].request, s.calls[t].phase.outcomes;
    if HasCommit(request.records) {
      OpeningIsWrittenDown(request.records[0], g.currentEpoch, request.keys, |g.records| + 1, now);
      CommittedEpochRows(limits, g, request.keys, request.records, outcomes, now);
      OpenedWhen(request.records[0], request.keys, |g.records| + 1, now);
      OpeningKeepsKeys(g.epochs, g.currentEpoch, book, OpeningOf(request.records[0], request.keys).value,
                       OpenedBy(request.records[0], request.keys, |g.records| + 1, now));
    } else {
      PlainCommitKeepsEpochs(limits, g, request.keys, request.records, outcomes, now);
    }
  }

  lemma OpenedWhen(record: Record, keys: Option<EpochKeyDelivery>, recordId: nat, now: Time)
    ensures OpenedBy(record, keys, recordId, now).recordId == recordId && OpenedBy(record, keys, recordId, now).at == now
  {
  }

  lemma StepKeepsKeys(limits: Limits, s: System, book: Book, e: Event)
    requires SystemInv(s) && Enabled(s, e) && KeysKept(s.group.epochs, s.group.currentEpoch, book)
    ensures var g' := Step(limits, s, e).group; KeysKept(g'.epochs, g'.currentEpoch, Note(limits, s, book, e))
  {
    hide SystemInv, KeysKept, AfterCommit, AfterFetch, AfterGate, AfterRead, EarlyResults, RefuseBatch, ProbeBatch, ValidateBatch;
    if e.CommitCall? { CommitKeepsKeys(limits, s, book, e.t, e.now); }
  }

  /** A run with its book. */
  function Run(limits: Limits, s: System, book: Book, events: seq<Event>): Option<(System, Book)>
    decreases |events|
  {
    if |events| == 0 then Some((s, book))
    else if !Enabled(s, events[0]) then None
    else Run(limits, Step(limits, s, events[0]), Note(limits, s, book, events[0]), events[1..])
  }

  lemma {:induction false} RunKeepsKeys(limits: Limits, s: System, book: Book, events: seq<Event>)
    requires SystemInv(s) && KeysKept(s.group.epochs, s.group.currentEpoch, book) && Run(limits, s, book, events).Some?
    ensures var (s', book') := Run(limits, s, book, events).value;
            SystemInv(s') && KeysKept(s'.group.epochs, s'.group.currentEpoch, book')
    decreases |events|
  {
    hide SystemInv, KeysKept, Step, Enabled, Note;
    if |events| != 0 {
      GroupRuns.StepKeepsInv(limits, s, events[0]);
      StepKeepsKeys(limits, s, book, events[0]);
      RunKeepsKeys(limits, Step(limits, s, events[0]), Note(limits, s, book, events[0]), events[1..]);
    }
  }

  lemma FoundedKeepsKeys(limits: Limits, request: CreateRequest, now: Time)
    requires FoundingCommit(request)
    ensures KeysKept(Founded(limits, request, now).epochs, 1, FirstBook(request, now))
  {
    hide Apply, PruneAfter, NextRecovery;
    WellAttachedIsWellFormed(request.initialCommit, 0, request.keys);
    OpeningIsWrittenDown(request.initialCommit, 0, request.keys, 1, now);
  }

  // ---- the policy each row is kept under ----

  /** The policy the commit that opened an epoch asked for, as the limits have it. */
  ghost predicate PolicyOf(limits: Limits, g: Group, epoch: nat, policy: Policy) {
    1 <= epoch && epoch - 1 in g.commits && policy == PolicyFor(limits, g.commits[epoch - 1].record).policy
  }

  /** Row `k` may be pruned when its class says under the policy of its epoch, or for a commit of the one it opened. */
  ghost predicate Retained(limits: Limits, g: Group, k: nat)
    requires k < |g.records|
  {
    var row := g.records[k];
    && row.policyVersion == row.record.epoch + (if row.record.isCommit then 1 else 0)
    && exists policy ::
         PolicyOf(limits, g, row.policyVersion, policy) && row.pruneAfter == PruneAfter(row.createTime, row.record.retentionClass, policy)
  }

  ghost predicate PoliciesKept(limits: Limits, g: Group) {
    && PolicyOf(limits, g, g.currentEpoch, g.policy)
    && g.contextHash == ContextOf(g.commits[g.currentEpoch - 1].record)
    && (forall k: nat :: k < |g.records| ==> Retained(limits, g, k))
  }

  lemma GroupParts(g: Group)
    requires GroupInv(g)
    ensures 1 <= g.currentEpoch == g.policyVersion && CommitsMatch(g)
  {
    hide CommitsMatch, Gapless, EpochsOrdered, ClaimsMatch, SendersMatch, AccountsMatch, PinsMatch, MarkersMatch, EpochRowMatches;
  }

  lemma OldRowRetained(limits: Limits, g: Group, g': Group, k: nat)
    requires k < |g.records| && g.records <= g'.records && Retained(limits, g, k)
    requires forall e :: e in g.commits ==> e in g'.commits && g'.commits[e] == g.commits[e]
    ensures Retained(limits, g', k)
  {
    hide PruneAfter, PolicyFor;
    var row := g.records[k];
    var policy :| PolicyOf(limits, g, row.policyVersion, policy) && row.pruneAfter == PruneAfter(row.createTime, row.record.retentionClass, policy);
    assert g'.records[k] == row && PolicyOf(limits, g', row.policyVersion, policy);
  }

  lemma PolicyForIgnoresId(limits: Limits, record: Record, recordId: nat)
    ensures PolicyFor(limits, record.(recordId := recordId, pruneAfter := None)) == PolicyFor(limits, record)
    ensures ContextOf(record.(recordId := recordId, pruneAfter := None)) == ContextOf(record)
  {
    hide Apply;
  }

  /** The policy in force once a batch is written is its commit's, or the one that was. */
  lemma {:induction false} WrittenPolicy(limits: Limits, g: Group, g': Group, request: SubmitRequest, outcomes: seq<Probe>, results: seq<SubmitResult>, now: Time)
    requires GroupInv(g) && GroupInv(g') && Extends(g, g') && PoliciesKept(limits, g) && |outcomes| == |request.records|
    requires Takes(limits, g, request.records, outcomes, Submitted(Some(g'), results), now)
    requires HasCommit(request.records) ==> |outcomes| == 1 && outcomes[0] == Absent && request.records[0].epoch == g.currentEpoch
    ensures PolicyOf(limits, g', g'.currentEpoch, g'.policy)
    ensures g'.currentEpoch - 1 in g'.commits && g'.contextHash == ContextOf(g'.commits[g'.currentEpoch - 1].record)
  {
    hide GroupInv, PolicyFor, ContextOf, PruneAfter, Retained, CommitsMatch;
    GroupParts(g);
    GroupParts(g');
    if HasCommit(request.records) {
      var record := request.records[0];
      assert TakenAs(limits, g, g', record, outcomes[0], CountAbsent(outcomes, 0), results[0], now);
      PolicyForIgnoresId(limits, record, |g.records| + 1);
      NewCommitIsTheLast(g, g');
    }
  }

  lemma NewCommitIsTheLast(g: Group, g': Group)
    requires CommitsMatch(g) && CommitsMatch(g') && |g'.records| == |g.records| + 1 && g.records <= g'.records
    requires g'.currentEpoch == g.currentEpoch + 1
    ensures g.currentEpoch in g'.commits && g'.commits[g.currentEpoch].record == g'.records[|g.records|].record
  {
    var e := g.currentEpoch;
    assert e in g'.commits && CommitNames(g', e);
    var k: nat := g'.commits[e].recordId - 1;
    assert At(g', k) == g'.records[k].record && (k < |g.records| ==> At(g', k) == At(g, k));
  }

  /** Each new row is one unsettled record's, written as it should be. */
  lemma {:induction false} NewRowIsWritten(limits: Limits, g: Group, g': Group, batch: seq<Record>, outcomes: seq<Probe>, results: seq<SubmitResult>, now: Time, k: nat)
    returns (i: nat)
    requires |outcomes| == |batch| && Takes(limits, g, batch, outcomes, Submitted(Some(g'), results), now) && |g.records| <= k < |g'.records|
    ensures i < |batch| && outcomes[i] == Absent && WrittenAs(g', k, batch[i], now)
  {
    hide TakenAs, PolicyFor, ContextOf, WrittenAs;
    i := AllocatedToSome(outcomes, |outcomes|, k - |g.records|);
    assert TakenAs(limits, g, g', batch[i], outcomes[i], CountAbsent(outcomes, i), results[i], now);
    TakenIsWritten(limits, g, g', batch[i], CountAbsent(outcomes, i), results[i], now);
  }

  lemma TakenIsWritten(limits: Limits, g: Group, g': Group, record: Record, before: nat, result: SubmitResult, now: Time)
    requires TakenAs(limits, g, g', record, Absent, before, result, now)
    ensures WrittenAs(g', |g.records| + before, record, now)
  {
  }

  lemma {:induction false} NewRowRetained(limits: Limits, g: Group, g': Group, batch: seq<Record>, outcomes: seq<Probe>, results: seq<SubmitResult>, now: Time, k: nat)
    requires g'.policyVersion == g'.currentEpoch && |outcomes| == |batch| && CommitAlone(batch)
    requires Takes(limits, g, batch, outcomes, Submitted(Some(g'), results), now) && |g.records| <= k < |g'.records|
    requires forall i: nat :: i < |batch| && outcomes[i] == Absent ==> batch[i].epoch == g.currentEpoch
    requires PolicyOf(limits, g', g'.currentEpoch, g'.policy)
    ensures Retained(limits, g', k)
  {
    var i := NewRowIsWritten(limits, g, g', batch, outcomes, results, now, k);
    assert GrownBy(limits, g, g', batch, CountAbsent(outcomes, |batch|));
    hide PolicyFor, ContextOf, PruneAfter, PolicyOf, Takes;
    assert HasCommit(batch) <==> batch[i].isCommit;
    assert g'.records[k].policyVersion == g'.currentEpoch;
  }

  /** What a call that commits is sure of. */
  lemma CommitFacts(limits: Limits, s: System, t: nat, now: Time)
    requires SystemInv(s) && Enabled(s, CommitCall(t, now))
    ensures var request, outcomes, s' := s.calls[t].request, s.calls[t].phase.outcomes, Step(limits, s, CommitCall(t, now));
            && CommitAlone(request.records) && GroupInv(s.group) && GroupInv(s'.group) && Extends(s.group, s'.group)
            && (forall i: nat :: i < |request.records| && outcomes[i] == Absent ==> request.records[i].epoch == s.group.currentEpoch)
            && (HasCommit(request.records) ==> |outcomes| == 1 && outcomes[0] == Absent)
            && t in s'.calls && s'.calls[t].phase.Answered?
            && Takes(limits, s.group, request.records, outcomes, Submitted(Some(s'.group), s'.calls[t].phase.results), now)
  {
    hide GroupInv, LockSound, ReaderSound, ProbeSound, Step, Takes, Extends, MayBeWritten, WellAttached, Reached, KeepsItsPin, OpensNext, CommitBatch;
    var call := s.calls[t];
    assert CallSound(s.group, call);
    LockedSubmissionIsAnswered(limits, s, t, now);
    GroupRuns.StepKeepsInv(limits, s, CommitCall(t, now));
    CommitsWhatMayBeWritten(limits, s, t, now);
    forall i: nat | i < |call.request.records| && call.phase.outcomes[i] == Absent ensures call.request.records[i].epoch == s.group.currentEpoch {
      assert !Fails(s.group, call.request, call.phase.outcomes, i);
    }
  }

  lemma {:induction false} BatchKeepsPolicies(limits: Limits, g: Group, g': Group, request: SubmitRequest, outcomes: seq<Probe>, results: seq<SubmitResult>, now: Time)
    requires GroupInv(g) && GroupInv(g') && Extends(g, g') && PoliciesKept(limits, g) && |outcomes| == |request.records| && CommitAlone(request.records)
    requires Takes(limits, g, request.records, outcomes, Submitted(Some(g'), results), now)
    requires forall i: nat :: i < |request.records| && outcomes[i] == Absent ==> request.records[i].epoch == g.currentEpoch
    requires HasCommit(request.records) ==> |outcomes| == 1 && outcomes[0] == Absent
    ensures PoliciesKept(limits, g')
  {
    hide GroupInv, Takes, Retained, PolicyOf, Extends, CommitsMatch, ContextOf;
    WrittenPolicy(limits, g, g', request, outcomes, results, now);
    GroupParts(g');
    forall k: nat | k < |g'.records| ensures Retained(limits, g', k) {
      if k < |g.records| { KeptRow(limits, g, g', k); }
      else { NewRowRetained(limits, g, g', request.records, outcomes, results, now, k); }
    }
  }

  lemma CommitKeepsPolicies(limits: Limits, s: System, t: nat, now: Time)
    requires SystemInv(s) && Enabled(s, CommitCall(t, now)) && PoliciesKept(limits, s.group)
    ensures PoliciesKept(limits, Step(limits, s, CommitCall(t, now)).group)
  {
    hide SystemInv, Step, PoliciesKept, Takes, GroupInv, Extends, CommitAlone, HasCommit;
    CommitFacts(limits, s, t, now);
    var s' := Step(limits, s, CommitCall(t, now));
    BatchKeepsPolicies(limits, s.group, s'.group, s.calls[t].request, s.calls[t].phase.outcomes, s'.calls[t].phase.results, now);
  }

  lemma KeptRow(limits: Limits, g: Group, g': Group, k: nat)
    requires Extends(g, g') && k < |g.records| && Retained(limits, g, k)
    ensures Retained(limits, g', k)
  {
    OldRowRetained(limits, g, g', k);
  }

  lemma SamePolicies(limits: Limits, g: Group, g': Group)
    requires PoliciesKept(limits, g) && g' == g.(closed := g'.closed)
    ensures PoliciesKept(limits, g')
  {
    forall k: nat | k < |g.records| ensures Retained(limits, g', k) { OldRowRetained(limits, g, g', k); }
  }

  lemma StepKeepsPolicies(limits: Limits, s: System, e: Event)
    requires SystemInv(s) && Enabled(s, e) && PoliciesKept(limits, s.group)
    ensures PoliciesKept(limits, Step(limits, s, e).group)
  {
    hide SystemInv, PoliciesKept, AfterCommit, AfterFetch, AfterGate, AfterRead, EarlyResults, RefuseBatch, ProbeBatch, ValidateBatch;
    if e.CommitCall? { CommitKeepsPolicies(limits, s, e.t, e.now); }
    else { SamePolicies(limits, s.group, Step(limits, s, e).group); }
  }

  lemma {:induction false} RunKeepsPolicies(limits: Limits, s: System, events: seq<Event>)
    requires SystemInv(s) && PoliciesKept(limits, s.group) && Exec(limits, s, events).Some?
    ensures PoliciesKept(limits, Exec(limits, s, events).value.group)
    decreases |events|
  {
    hide SystemInv, PoliciesKept, Step, Enabled;
    if |events| != 0 {
      GroupRuns.StepKeepsInv(limits, s, events[0]);
      StepKeepsPolicies(limits, s, events[0]);
      RunKeepsPolicies(limits, Step(limits, s, events[0]), events[1..]);
    }
  }

  lemma FoundedPolicies(limits: Limits, request: CreateRequest, now: Time)
    requires FoundingCommit(request)
    ensures PoliciesKept(limits, Founded(limits, request, now))
  {
    hide PruneAfter, NextRecovery;
    var g := Founded(limits, request, now);
    WellAttachedIsWellFormed(request.initialCommit, 0, request.keys);
    PolicyForIgnoresId(limits, request.initialCommit, 1);
    assert PolicyOf(limits, g, 1, g.policy);
  }

  /**
   In every run from a founding commit, every row may be pruned exactly when its class says from its own
   instant, under the policy its epoch's opening commit asked for as the limits have it; a commit's own
   row is kept under the policy it brings.
   */
  lemma RowsRetainedAsPromised(limits: Limits, request: CreateRequest, now: Time, events: seq<Event>, s: System, k: nat)
    requires Reachable(limits, request, now, events, s) && k < |s.group.records|
    ensures Retained(limits, s.group, k) && PolicyOf(limits, s.group, s.group.currentEpoch, s.group.policy)
  {
    hide Exec, Founded, FoundingCommit, SystemInv, Retained, PolicyOf;
    FoundedStarts(limits, request, now);
    FoundedPolicies(limits, request, now);
    RunKeepsPolicies(limits, Started(limits, request, now), events);
  }

  // ---- what the server hands out ----

  function Started(limits: Limits, request: CreateRequest, now: Time): System
    requires FoundingCommit(request)
  {
    System(Founded(limits, request, now), None, map[], map[])
  }

  /** What is served of an epoch is what it was opened with. */
  ghost predicate ServedAsOpened(g: Group, book: Book, e: nat) {
    var served, current := KeysFor(g, e), g.currentEpoch;
    && (served.Some? <==> !g.closed && e <= current && (1 <= e || current <= 1))
    && (served.Some? ==>
          && e in book && served.value.epoch == e
          && served.value.writeKey == (if current <= e + 1 then Some(book[e].writeKey) else None)
          && served.value.readKey == (if 1 <= e then Some(book[e].readKey) else None)
          && served.value.readKeyInstall == (if 1 <= e then Some(book[e].at) else None)
          && served.value.algId == book[e].algId && served.value.openedByRecord == book[e].recordId
          && served.value.acceptTime == book[e].at
          && (served.value.retireTime.Some? <==> e < current)
          && (e < current ==> e + 1 in book && served.value.retireTime == Some(book[e + 1].at)))
  }

  lemma KeysServed(g: Group, book: Book, e: nat)
    requires KeysKept(g.epochs, g.currentEpoch, book)
    ensures ServedAsOpened(g, book, e)
  {
    if e <= g.currentEpoch { assert RowKept(g.epochs[e], e, g.currentEpoch, book[e], NextIn(book, e)); }
  }

  /**
   In every run from a founding commit, of an open group: the keys of an epoch are those it was opened
   with, each under its own name, the write key until two epochs later and the read key for good; they
   were installed and accepted when it was entry, and it was retired when the next was. Epoch 0 has
   the bootstrap key alone, for as long; no other epoch has any.
   */
  lemma KeysServedAsInstalled(limits: Limits, request: CreateRequest, now: Time, events: seq<Event>, e: nat)
    requires FoundingCommit(request) && Run(limits, Started(limits, request, now), FirstBook(request, now), events).Some?
    ensures var (s, book) := Run(limits, Started(limits, request, now), FirstBook(request, now), events).value;
            ServedAsOpened(s.group, book, e)
  {
    hide SystemInv, Run, Founded, FirstBook, FoundingCommit, KeysKept, ServedAsOpened;
    FoundedStarts(limits, request, now);
    FoundedKeepsKeys(limits, request, now);
    RunKeepsKeys(limits, Started(limits, request, now), FirstBook(request, now), events);
    var (s, book) := Run(limits, Started(limits, request, now), FirstBook(request, now), events).value;
    KeysServed(s.group, book, e);
  }

  lemma FoundedStarts(limits: Limits, request: CreateRequest, now: Time)
    requires FoundingCommit(request)
    ensures SystemInv(Started(limits, request, now)) && Started(limits, request, now).group.currentEpoch == 1
  {
    hide GroupInv, Apply, PruneAfter, NextRecovery, OpeningOf, WellFormedEpochAttachment;
    FoundedInv(limits, request, now);
  }
}
