/**
 Any number of submissions, closes and readers of one group, interleaved step by step. The probe of
 a submission runs before it holds the row lock and may be stale by the time the lock is taken; the
 gates, the refusal and the commit run under the lock.
 */
module GroupRuns {
  import opened Common
  import opened Records
  import opened GroupTransaction
  import opened GroupLog
  import opened GroupBatch
  import opened GroupFetch

  datatype Phase =
    | Arrived
    | Probed(outcomes: seq<Probe>)
    | Locked(outcomes: seq<Probe>)
    | Gating(outcomes: seq<Probe>, state: GroupState, next: nat, highWater: map<Bytes, nat>, pinned: map<Bytes, Bytes>)
    | Refusing(outcomes: seq<Probe>, state: GroupState, offender: nat, reason: Reason)
    | Answered(results: seq<SubmitResult>)

  datatype Call = Call(request: SubmitRequest, phase: Phase)

  /** A reader that asks for every class and follows the cursor it is given. */
  datatype Reader = Reader(headsOnly: bool, cursor: nat, received: seq<Record>)

  datatype System = System(group: Group, holder: Option<nat>, calls: map<nat, Call>, readers: map<nat, Reader>)

  datatype Event =
    | Arrive(t: nat, request: SubmitRequest)
    | ProbeCall(t: nat)
    | AnswerEarly(t: nat)
    | LockRow(t: nat)
    | ReadState(t: nat)
    | GateNext(t: nat)
    | FillRefusal(t: nat)
    | CommitCall(t: nat, now: Time)
    | CloseGroup
    | OpenReader(r: nat, headsOnly: bool)
    | FetchPage(r: nat, limit: nat, readEpoch: nat)

  /** The phases a submission goes through while it holds the row lock. */
  predicate HoldsRow(phase: Phase) {
    phase.Locked? || phase.Gating? || phase.Refusing?
  }

  /** Whether step (0) alone answers the batch, in front of the lock. */
  predicate AnsweredByProbe(outcomes: seq<Probe>) {
    SomeDiffer(outcomes) || AllIdentical(outcomes)
  }

  predicate Enabled(s: System, e: Event) {
    match e
    case Arrive(t, request) => t !in s.calls && ValidateBatch(request).None?
    case ProbeCall(t) => t in s.calls && s.calls[t].phase.Arrived?
    case AnswerEarly(t) =>
      && t in s.calls && s.calls[t].phase.Probed?
      && |s.calls[t].phase.outcomes| == |s.calls[t].request.records|
      && AnsweredByProbe(s.calls[t].phase.outcomes)
    case LockRow(t) =>
      && t in s.calls && s.calls[t].phase.Probed? && !AnsweredByProbe(s.calls[t].phase.outcomes)
      && s.holder.None?
    case ReadState(t) => t in s.calls && s.calls[t].phase.Locked?
    case GateNext(t) =>
      && t in s.calls && s.calls[t].phase.Gating?
      && |s.calls[t].phase.outcomes| == |s.calls[t].request.records|
      && s.calls[t].phase.next < |s.calls[t].request.records|
    case FillRefusal(t) =>
      && t in s.calls && s.calls[t].phase.Refusing?
      && |s.calls[t].phase.outcomes| == |s.calls[t].request.records|
    case CommitCall(t, now) =>
      && t in s.calls && s.calls[t].phase.Gating?
      && |s.calls[t].phase.outcomes| == |s.calls[t].request.records|
      && s.calls[t].phase.next == |s.calls[t].request.records|
    case CloseGroup => s.holder.None?
    case OpenReader(r, _) => r !in s.readers
    case FetchPage(r, _, _) => r in s.readers
  }

  // ---- what each step makes of the call that takes it ----

  function EarlyResults(g: Group, batch: seq<Record>, outcomes: seq<Probe>): seq<SubmitResult>
    requires |outcomes| == |batch| && AnsweredByProbe(outcomes)
  {
    if SomeDiffer(outcomes) then
      RefuseBatch(Some(g), batch, outcomes, 0, FirstDiffering(outcomes, 0), ReasonStreamIndexReused)
    else AllSettled(Some(g), batch, outcomes)
  }

  function AfterRead(g: Group, outcomes: seq<Probe>): Phase {
    if g.closed then Answered(RefuseUnavailable(outcomes)) else Gating(outcomes, StateOf(g), 0, map[], map[])
  }

  function AfterGate(g: Group, request: SubmitRequest, p: Phase): Phase
    requires p.Gating? && |p.outcomes| == |request.records| && p.next < |request.records|
  {
    var record := request.records[p.next];
    if p.outcomes[p.next] != Absent then p.(next := p.next + 1)
    else
      var reason := Gate(g, p.state, record, request.keys, p.highWater, p.pinned);
      if reason != ReasonOk then Refusing(p.outcomes, p.state, p.next, reason)
      else p.(next := p.next + 1, highWater := NoteHighWater(p.highWater, record), pinned := NotePin(p.pinned, record))
  }

  function AfterCommit(limits: Limits, g: Group, request: SubmitRequest, p: Phase, now: Time): (Group, Phase)
    requires p.Gating? && |p.outcomes| == |request.records|
  {
    var lost := FirstCasLost(g, request.records, p.outcomes, 0);
    if lost.Some? then
      (g, Answered(RefuseBatch(Some(g), request.records, p.outcomes, p.state.currentEpoch, lost.value, ReasonCommitLost)))
    else
      (CommitBatch(limits, g, p.state.currentEpoch, request.keys, request.records, p.outcomes, now),
       Answered(CommittedResults(limits, p.state, request.keys, request.records, p.outcomes, g.nextRecordId)))
  }

  function AfterFetch(g: Group, reader: Reader, limit: nat, readEpoch: nat): Reader {
    var page := Fetch(g, FetchRequest(reader.cursor, limit, reader.headsOnly, 0, readEpoch));
    if page.None? then reader
    else Reader(reader.headsOnly, page.value.nextRecordId, reader.received + page.value.records)
  }

  function Moved(s: System, t: nat, phase: Phase): System
    requires t in s.calls
  {
    s.(calls := s.calls[t := s.calls[t].(phase := phase)],
       holder := if HoldsRow(phase) then Some(t) else if HoldsRow(s.calls[t].phase) then None else s.holder)
  }

  function Step(limits: Limits, s: System, e: Event): System
    requires Enabled(s, e)
  {
    match e
    case Arrive(t, request) => s.(calls := s.calls[t := Call(request, Arrived)])
    case ProbeCall(t) => Moved(s, t, Probed(ProbeBatch(s.group.claims, s.calls[t].request.records)))
    case AnswerEarly(t) =>
      Moved(s, t, Answered(EarlyResults(s.group, s.calls[t].request.records, s.calls[t].phase.outcomes)))
    case LockRow(t) => Moved(s, t, Locked(s.calls[t].phase.outcomes))
    case ReadState(t) => Moved(s, t, AfterRead(s.group, s.calls[t].phase.outcomes))
    case GateNext(t) => Moved(s, t, AfterGate(s.group, s.calls[t].request, s.calls[t].phase))
    case FillRefusal(t) =>
      var p := s.calls[t].phase;
      Moved(s, t, Answered(RefuseBatch(Some(s.group), s.calls[t].request.records, p.outcomes,
                                       p.state.currentEpoch, p.offender, p.reason)))
    case CommitCall(t, now) =>
      var (group, phase) := AfterCommit(limits, s.group, s.calls[t].request, s.calls[t].phase, now);
      Moved(s, t, phase).(group := group)
    case CloseGroup => s.(group := Close(s.group))
    case OpenReader(r, headsOnly) => s.(readers := s.readers[r := Reader(headsOnly, 0, [])])
    case FetchPage(r, limit, readEpoch) =>
      s.(readers := s.readers[r := AfterFetch(s.group, s.readers[r], limit, readEpoch)])
  }

  // ---- what every reachable system satisfies ----

  ghost predicate OutcomeSound(g: Group, record: Record, outcome: Probe) {
    && (outcome.Identical? ==> ClaimedAs(g, record, outcome.recordId))
    && (outcome.Differs? ==> KeyOf(record) in g.claims && !SameContent(g.claims[KeyOf(record)], record))
  }

  /** What step (0) found stays found, however stale: only "absent" can stop being true. */
  ghost predicate ProbeSound(g: Group, batch: seq<Record>, outcomes: seq<Probe>) {
    && |outcomes| == |batch|
    && (forall i :: 0 <= i < |batch| ==> OutcomeSound(g, batch[i], outcomes[i]))
  }

  ghost predicate ResultSound(g: Group, record: Record, result: SubmitResult) {
    if Accepted(result.reason) then ClaimedAs(g, record, result.recordId) else result.recordId == 0
  }

  /** Every acceptance names the one row of its record, and no refusal names an id. */
  ghost predicate ResultsSound(g: Group, batch: seq<Record>, results: seq<SubmitResult>) {
    && |results| == |batch|
    && (forall i :: 0 <= i < |batch| ==> ResultSound(g, batch[i], results[i]))
  }

  ghost predicate LockedSound(g: Group, request: SubmitRequest, outcomes: seq<Probe>) {
    ProbeSound(g, request.records, outcomes) && !AnsweredByProbe(outcomes)
  }

  /** The state a submission read under the lock is the state the group still has. */
  ghost predicate GatingSound(g: Group, request: SubmitRequest, p: Phase)
    requires p.Gating?
  {
    && LockedSound(g, request, p.outcomes)
    && p.state == StateOf(g) && !g.closed
    && p.next <= |request.records|
    && GateFrom(g, p.state, request.records, p.outcomes, request.keys, 0, map[], map[])
       == GateFrom(g, p.state, request.records, p.outcomes, request.keys, p.next, p.highWater, p.pinned)
  }

  ghost predicate RefusingSound(g: Group, request: SubmitRequest, p: Phase)
    requires p.Refusing?
  {
    && LockedSound(g, request, p.outcomes)
    && p.state == StateOf(g) && !g.closed
    && GateFrom(g, p.state, request.records, p.outcomes, request.keys, 0, map[], map[]) == Refused(p.offender, p.reason)
  }

  ghost predicate CallSound(g: Group, call: Call) {
    && CommitAlone(call.request.records)
    && match call.phase
       case Arrived => true
       case Probed(outcomes) => ProbeSound(g, call.request.records, outcomes)
       case Locked(outcomes) => LockedSound(g, call.request, outcomes)
       case Gating(_, _, _, _, _) => GatingSound(g, call.request, call.phase)
       case Refusing(_, _, _, _) => RefusingSound(g, call.request, call.phase)
       case Answered(results) => ResultsSound(g, call.request.records, results)
  }

  /** A reader has received exactly the log up to its cursor. */
  ghost predicate ReaderSound(g: Group, reader: Reader) {
    && reader.cursor <= |g.records|
    && AllServedFrom(reader.received, g.records[..reader.cursor], reader.headsOnly)
  }

  ghost predicate LockSound(s: System) {
    forall t: nat :: t in s.calls && HoldsRow(s.calls[t].phase) <==> s.holder == Some(t)
  }

  ghost predicate SystemInv(s: System) {
    && GroupInv(s.group)
    && LockSound(s)
    && (forall t: nat :: t in s.calls ==> CallSound(s.group, s.calls[t]))
    && (forall r: nat :: r in s.readers ==> ReaderSound(s.group, s.readers[r]))
  }

  // ---- the call that takes a step ----

  lemma {:induction false} ShapedBatch(request: SubmitRequest)
    requires ValidateBatch(request).None?
    ensures CommitAlone(request.records)
  {
  }

  lemma ProbeIsSound(g: Group, batch: seq<Record>)
    ensures ProbeSound(g, batch, ProbeBatch(g.claims, batch))
  {
  }

  lemma {:induction false} EarlyIsSound(g: Group, batch: seq<Record>, outcomes: seq<Probe>)
    requires ProbeSound(g, batch, outcomes) && AnsweredByProbe(outcomes)
    ensures ResultsSound(g, batch, EarlyResults(g, batch, outcomes))
  {
    hide ClaimedAs, WinnerFor;
    forall i | 0 <= i < |batch| ensures ResultSound(g, batch[i], EarlyResults(g, batch, outcomes)[i]) {
      assert OutcomeSound(g, batch[i], outcomes[i]);
    }
  }

  lemma {:induction false} UnavailableIsSound(g: Group, batch: seq<Record>, outcomes: seq<Probe>)
    requires ProbeSound(g, batch, outcomes)
    ensures ResultsSound(g, batch, RefuseUnavailable(outcomes))
  {
    hide ClaimedAs;
    forall i | 0 <= i < |batch| ensures ResultSound(g, batch[i], RefuseUnavailable(outcomes)[i]) {
      assert OutcomeSound(g, batch[i], outcomes[i]);
    }
  }

  lemma {:induction false} RefusalIsSound(g: Group, batch: seq<Record>, outcomes: seq<Probe>, known: nat, offender: nat, reason: Reason)
    requires ProbeSound(g, batch, outcomes) && !Accepted(reason)
    ensures ResultsSound(g, batch, RefuseBatch(Some(g), batch, outcomes, known, offender, reason))
  {
    hide ClaimedAs, WinnerFor;
    var results := RefuseBatch(Some(g), batch, outcomes, known, offender, reason);
    forall i | 0 <= i < |batch| ensures ResultSound(g, batch[i], results[i]) {
      assert OutcomeSound(g, batch[i], outcomes[i]);
    }
  }

  lemma GateIsSound(g: Group, request: SubmitRequest, p: Phase)
    requires p.Gating? && GatingSound(g, request, p) && p.next < |request.records|
    ensures var p' := AfterGate(g, request, p);
            if p'.Gating? then GatingSound(g, request, p') else p'.Refusing? && RefusingSound(g, request, p')
  {
    hide Gate, ProbeSound, NoteHighWater, NotePin;
  }

  /** With the gates passed under the lock, no commit of the batch can have lost its epoch. */
  lemma GatedCommitHasNotLost(g: Group, request: SubmitRequest, p: Phase)
    requires p.Gating? && GatingSound(g, request, p) && p.next == |request.records|
    requires CommitAlone(request.records)
    ensures FirstCasLost(g, request.records, p.outcomes, 0) == None
    ensures Gated(g, request.records, p.outcomes, request.keys)
  {
    if FirstCasLost(g, request.records, p.outcomes, 0).Some? {
      assert false;
    }
  }

  lemma CommitIsSound(limits: Limits, g: Group, request: SubmitRequest, p: Phase, now: Time)
    requires GroupInv(g) && CommitAlone(request.records)
    requires p.Gating? && GatingSound(g, request, p) && p.next == |request.records|
    ensures var (g', p') := AfterCommit(limits, g, request, p, now);
            && GroupInv(g') && Extends(g, g')
            && p'.Answered? && ResultsSound(g', request.records, p'.results)
  {
    hide GroupInv, Extends, ClaimedAs, Gated, CommitBatch;
    GatedCommitHasNotLost(g, request, p);
    CommitBatchKeepsInv(limits, g, request.keys, request.records, p.outcomes, now);
    CommitBatchExtends(limits, g, request.keys, request.records, p.outcomes, now);
    var g' := CommitBatch(limits, g, g.currentEpoch, request.keys, request.records, p.outcomes, now);
    var results := CommittedResults(limits, p.state, request.keys, request.records, p.outcomes, g.nextRecordId);
    forall i | 0 <= i < |request.records| ensures ResultSound(g', request.records[i], results[i]) {
      assert OutcomeSound(g, request.records[i], p.outcomes[i]);
      if p.outcomes[i].Identical? { ClaimPersists(g, g', request.records[i], p.outcomes[i].recordId); }
    }
  }

  // ---- everything else, while the log only grows ----

  lemma {:induction false} OutcomesPersist(g: Group, g': Group, batch: seq<Record>, outcomes: seq<Probe>)
    requires Extends(g, g') && ProbeSound(g, batch, outcomes)
    ensures ProbeSound(g', batch, outcomes)
  {
    forall i | 0 <= i < |batch| ensures OutcomeSound(g', batch[i], outcomes[i]) {
      assert OutcomeSound(g, batch[i], outcomes[i]);
    }
  }

  lemma ResultsPersist(g: Group, g': Group, batch: seq<Record>, results: seq<SubmitResult>)
    requires Extends(g, g') && ResultsSound(g, batch, results)
    ensures ResultsSound(g', batch, results)
  {
    forall i | 0 <= i < |batch| ensures ResultSound(g', batch[i], results[i]) {
      assert ResultSound(g, batch[i], results[i]);
    }
  }

  /** A submission that does not hold the lock keeps what it knows, whatever another one writes. */
  lemma CallPersists(g: Group, g': Group, call: Call)
    requires Extends(g, g') && CallSound(g, call) && !HoldsRow(call.phase)
    ensures CallSound(g', call)
  {
    hide Extends;
    match call.phase
    case Arrived =>
    case Probed(outcomes) => OutcomesPersist(g, g', call.request.records, outcomes);
    case Answered(results) => ResultsPersist(g, g', call.request.records, results);
  }

  lemma ReaderPersists(g: Group, g': Group, reader: Reader)
    requires Extends(g, g') && ReaderSound(g, reader)
    ensures ReaderSound(g', reader)
  {
    assert g'.records[..reader.cursor] == g.records[..reader.cursor];
  }

  lemma FetchKeepsReader(g: Group, reader: Reader, limit: nat, readEpoch: nat)
    requires GroupInv(g) && ReaderSound(g, reader)
    ensures ReaderSound(g, AfterFetch(g, reader, limit, readEpoch))
  {
    hide GroupInv, PageOf, ServedFrom;
    if !g.closed {
      var request := FetchRequest(reader.cursor, limit, reader.headsOnly, 0, readEpoch);
      GroupIsOrdered(g);
      PageIsTheNextRows(g.records, request);
      var hi := PageOf(g.records, request).nextRecordId;
      ServedOn(reader.received, PageOf(g.records, request).records, g.records, reader.cursor, hi, reader.headsOnly);
    }
  }

  lemma CloseKeepsInv(g: Group)
    requires GroupInv(g)
    ensures GroupInv(Close(g)) && Extends(g, Close(g))
  {
    SameRowsSameShape(g, Close(g));
  }

  // ---- one step of the system ----

  lemma MovedKeepsLock(s: System, t: nat, phase: Phase)
    requires LockSound(s) && t in s.calls
    requires HoldsRow(phase) ==> HoldsRow(s.calls[t].phase) || s.holder.None?
    ensures LockSound(Moved(s, t, phase))
  {
  }

  /** A step that changes one call and no row. */
  lemma MovedKeepsInv(s: System, t: nat, phase: Phase)
    requires SystemInv(s) && t in s.calls
    requires HoldsRow(phase) ==> HoldsRow(s.calls[t].phase) || s.holder.None?
    requires CallSound(s.group, s.calls[t].(phase := phase))
    ensures SystemInv(Moved(s, t, phase))
  {
    hide GroupInv, CallSound, ReaderSound, LockSound;
    MovedKeepsLock(s, t, phase);
  }

  lemma CommitCallKeepsInv(limits: Limits, s: System, t: nat, now: Time)
    requires SystemInv(s) && Enabled(s, CommitCall(t, now))
    ensures SystemInv(Step(limits, s, CommitCall(t, now)))
    ensures Extends(s.group, Step(limits, s, CommitCall(t, now)).group)
  {
    hide GroupInv, LockSound, ReaderSound, Extends, AfterCommit, CallSound;
    var s' := Step(limits, s, CommitCall(t, now));
    CommitCallIsSound(limits, s, t, now);
    MovedKeepsLock(s, t, s'.calls[t].phase);
    LockIsExclusive(s, t);
    assert LockSound(s') by { SameLockSameSound(Moved(s, t, s'.calls[t].phase), s'); }
    forall u: nat | u in s'.calls ensures CallSound(s'.group, s'.calls[u]) {
      if u != t { CallPersists(s.group, s'.group, s.calls[u]); }
    }
    forall r: nat | r in s'.readers ensures ReaderSound(s'.group, s'.readers[r]) {
      ReaderPersists(s.group, s'.group, s.readers[r]);
    }
  }

  lemma LockIsExclusive(s: System, t: nat)
    requires LockSound(s) && t in s.calls && HoldsRow(s.calls[t].phase)
    ensures forall u: nat :: u in s.calls && u != t ==> !HoldsRow(s.calls[u].phase)
  {
  }

  lemma SameLockSameSound(s: System, s': System)
    requires LockSound(s) && s'.calls == s.calls && s'.holder == s.holder
    ensures LockSound(s')
  {
  }

  lemma CommitCallIsSound(limits: Limits, s: System, t: nat, now: Time)
    requires SystemInv(s) && Enabled(s, CommitCall(t, now))
    ensures var s' := Step(limits, s, CommitCall(t, now));
            && t in s'.calls && s'.calls[t].phase.Answered?
            && GroupInv(s'.group) && Extends(s.group, s'.group) && CallSound(s'.group, s'.calls[t])
  {
    hide GroupInv, LockSound, ReaderSound, Extends, AfterCommit;
    assert CallSound(s.group, s.calls[t]);
    CommitIsSound(limits, s.group, s.calls[t].request, s.calls[t].phase, now);
  }

  lemma CloseGroupKeepsInv(limits: Limits, s: System)
    requires SystemInv(s) && Enabled(s, CloseGroup)
    ensures SystemInv(Step(limits, s, CloseGroup)) && Extends(s.group, Step(limits, s, CloseGroup).group)
  {
    hide GroupInv, CallSound, ReaderSound, Extends;
    var s' := Step(limits, s, CloseGroup);
    CloseKeepsInv(s.group);
    forall u: nat | u in s.calls ensures CallSound(s'.group, s'.calls[u]) {
      CallPersists(s.group, s'.group, s.calls[u]);
    }
    forall r: nat | r in s'.readers ensures ReaderSound(s'.group, s'.readers[r]) {
      ReaderPersists(s.group, s'.group, s.readers[r]);
    }
  }

  lemma ReaderStepKeepsInv(limits: Limits, s: System, e: Event)
    requires SystemInv(s) && Enabled(s, e) && (e.OpenReader? || e.FetchPage?)
    ensures SystemInv(Step(limits, s, e))
  {
    hide GroupInv, CallSound, AfterFetch;
    if e.FetchPage? { FetchKeepsReader(s.group, s.readers[e.r], e.limit, e.readEpoch); }
  }

  lemma ArriveKeepsInv(limits: Limits, s: System, t: nat, request: SubmitRequest)
    requires SystemInv(s) && Enabled(s, Arrive(t, request))
    ensures SystemInv(Step(limits, s, Arrive(t, request)))
  {
    hide GroupInv, ReaderSound, ValidateBatch;
    ShapedBatch(request);
  }

  /** The phase a step on one call that writes nothing moves it to. */
  function NextPhase(s: System, e: Event): Phase
    requires Enabled(s, e) && Quiet(e)
  {
    match e
    case ProbeCall(t) => Probed(ProbeBatch(s.group.claims, s.calls[t].request.records))
    case AnswerEarly(t) => Answered(EarlyResults(s.group, s.calls[t].request.records, s.calls[t].phase.outcomes))
    case LockRow(t) => Locked(s.calls[t].phase.outcomes)
    case ReadState(t) => AfterRead(s.group, s.calls[t].phase.outcomes)
    case GateNext(t) => AfterGate(s.group, s.calls[t].request, s.calls[t].phase)
    case FillRefusal(t) =>
      var p := s.calls[t].phase;
      Answered(RefuseBatch(Some(s.group), s.calls[t].request.records, p.outcomes, p.state.currentEpoch, p.offender, p.reason))
  }

  predicate Quiet(e: Event) {
    e.ProbeCall? || e.AnswerEarly? || e.LockRow? || e.ReadState? || e.GateNext? || e.FillRefusal?
  }

  lemma QuietPhaseIsSound(s: System, e: Event)
    requires SystemInv(s) && Enabled(s, e) && Quiet(e)
    ensures CallSound(s.group, s.calls[e.t].(phase := NextPhase(s, e)))
    ensures HoldsRow(NextPhase(s, e)) ==> HoldsRow(s.calls[e.t].phase) || s.holder.None?
  {
    hide GroupInv, LockSound, ReaderSound, ProbeSound, ResultsSound, GateFrom, RefuseBatch, EarlyResults, ProbeBatch;
    var g, request, p := s.group, s.calls[e.t].request, s.calls[e.t].phase;
    assert CallSound(g, s.calls[e.t]);
    match e
    case ProbeCall(t) => ProbeIsSound(g, request.records);
    case AnswerEarly(t) => EarlyIsSound(g, request.records, p.outcomes);
    case LockRow(t) =>
    case ReadState(t) => UnavailableIsSound(g, request.records, p.outcomes);
    case GateNext(t) => GateIsSound(g, request, p);
    case FillRefusal(t) => RefusalIsSound(g, request.records, p.outcomes, p.state.currentEpoch, p.offender, p.reason);
  }

  /** Every step keeps the invariant, and the log only ever grows. */
  lemma StepKeepsInv(limits: Limits, s: System, e: Event)
    requires SystemInv(s) && Enabled(s, e)
    ensures SystemInv(Step(limits, s, e)) && Extends(s.group, Step(limits, s, e).group)
  {
    hide SystemInv, Extends;
    ExtendsItself(s.group);
    match e
    case CommitCall(t, now) => CommitCallKeepsInv(limits, s, t, now);
    case CloseGroup => CloseGroupKeepsInv(limits, s);
    case OpenReader(_, _) => ReaderStepKeepsInv(limits, s, e);
    case FetchPage(_, _, _) => ReaderStepKeepsInv(limits, s, e);
    case Arrive(t, request) => ArriveKeepsInv(limits, s, t, request);
    case _ => QuietStepKeepsInv(limits, s, e);
  }

  lemma QuietStepKeepsInv(limits: Limits, s: System, e: Event)
    requires SystemInv(s) && Enabled(s, e) && Quiet(e)
    ensures SystemInv(Step(limits, s, e)) && Step(limits, s, e).group == s.group
  {
    hide SystemInv, CallSound;
    QuietPhaseIsSound(s, e);
    MovedKeepsInv(s, e.t, NextPhase(s, e));
  }

  // ---- whole runs ----

  /** The system a run leads to, or nothing when one of its steps was not enabled. */
  function Exec(limits: Limits, s: System, events: seq<Event>): Option<System>
    decreases |events|
  {
    if |events| == 0 then Some(s)
    else if !Enabled(s, events[0]) then None
    else Exec(limits, Step(limits, s, events[0]), events[1..])
  }

  lemma {:induction false} RunKeepsInv(limits: Limits, s: System, events: seq<Event>)
    requires SystemInv(s) && Exec(limits, s, events).Some?
    ensures SystemInv(Exec(limits, s, events).value)
    ensures Extends(s.group, Exec(limits, s, events).value.group)
    decreases |events|
  {
    hide SystemInv, Extends, Step, Enabled;
    if |events| == 0 {
      ExtendsItself(s.group);
    } else {
      var s1 := Step(limits, s, events[0]);
      StepKeepsInv(limits, s, events[0]);
      RunKeepsInv(limits, s1, events[1..]);
      ExtendsTransitive(s.group, s1.group, Exec(limits, s, events).value.group);
    }
  }
}
