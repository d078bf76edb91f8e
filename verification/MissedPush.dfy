/**
 A run, step by step, in which a record is stored and announced after a subscriber has read its
 snapshot and before it is registered: nothing tells the subscriber of it.
 */
module MissedPush {
  import opened Common
  import opened Records
  import opened GroupTransaction
  import opened GroupLog
  import opened GroupBatch
  import opened GroupFetch
  import opened GroupTheorems
  import opened Subscriptions
  import opened Announcements
  import opened StoreAndPush
  import opened PushAndFetch
  import Store = GroupRuns
  import Push = SubscriptionRuns

  /** The first record after the founding commit: a wrap of epoch 1 its sender has not sent before. */
  predicate FirstWrap(request: CreateRequest, wrap: Record) {
    && ValidateBatch(SubmitRequest([wrap], None)).None?
    && !wrap.isCommit && wrap.epoch == 1 && KindOf(wrap) == AttachmentWrap
    && (wrap.sender == request.initialCommit.sender ==> request.initialCommit.streamIndex < wrap.streamIndex)
  }

  function WithCall(g: Group, holder: Option<nat>, wrap: Record, phase: Store.Phase): Store.System {
    Store.System(g, holder, map[0 := Store.Call(SubmitRequest([wrap], None), phase)], map[])
  }

  /** The wrap is unknown to the probe, and every gate lets it through. */
  lemma WrapPasses(limits: Limits, request: CreateRequest, now: Time, wrap: Record)
    requires FoundingCommit(request) && FirstWrap(request, wrap)
    ensures var g := Founded(limits, request, now);
            && ProbeBatch(g.claims, [wrap]) == [Absent] && !g.closed
            && Gate(g, StateOf(g), wrap, None, map[], map[]) == ReasonOk
  {
    hide ValidateBatch, Apply, PruneAfter, WellFormedEpochAttachment;
  }

  function Gated(g: Group, wrap: Record): Store.Phase {
    Store.Gating([Absent], StateOf(g), 1, NoteHighWater(map[], wrap), NotePin(map[], wrap))
  }

  ghost predicate StoreLeads(limits: Limits, s: Store.System, e: Store.Event, s': Store.System) {
    Store.Enabled(s, e) && Store.Step(limits, s, e) == s'
  }

  lemma StoreArrives(limits: Limits, g: Group, request: CreateRequest, wrap: Record)
    requires FirstWrap(request, wrap)
    ensures StoreLeads(limits, Store.System(g, None, map[], map[]), Store.Arrive(0, SubmitRequest([wrap], None)), WithCall(g, None, wrap, Store.Arrived))
  {
    hide ValidateBatch;
  }

  lemma StoreLocks(limits: Limits, g: Group, wrap: Record)
    requires ProbeBatch(g.claims, [wrap]) == [Absent] && !g.closed
    ensures StoreLeads(limits, WithCall(g, None, wrap, Store.Arrived), Store.ProbeCall(0), WithCall(g, None, wrap, Store.Probed([Absent])))
    ensures StoreLeads(limits, WithCall(g, None, wrap, Store.Probed([Absent])), Store.LockRow(0), WithCall(g, Some(0), wrap, Store.Locked([Absent])))
    ensures StoreLeads(limits, WithCall(g, Some(0), wrap, Store.Locked([Absent])), Store.ReadState(0),
                       WithCall(g, Some(0), wrap, Store.Gating([Absent], StateOf(g), 0, map[], map[])))
  {
    hide ProbeBatch;
    assert [Absent][0] == Absent;
  }

  lemma StoreGates(limits: Limits, g: Group, wrap: Record)
    requires Gate(g, StateOf(g), wrap, None, map[], map[]) == ReasonOk
    ensures StoreLeads(limits, WithCall(g, Some(0), wrap, Store.Gating([Absent], StateOf(g), 0, map[], map[])), Store.GateNext(0),
                       WithCall(g, Some(0), wrap, Gated(g, wrap)))
  {
    hide Gate;
  }

  function Committed(limits: Limits, g: Group, wrap: Record, now: Time): Group {
    CommitBatch(limits, g, g.currentEpoch, None, [wrap], [Absent], now)
  }

  function Results(limits: Limits, g: Group, wrap: Record): seq<SubmitResult> {
    CommittedResults(limits, StateOf(g), None, [wrap], [Absent], g.nextRecordId)
  }

  lemma StoreCommits(limits: Limits, g: Group, wrap: Record, now: Time)
    requires !wrap.isCommit
    ensures StoreLeads(limits, WithCall(g, Some(0), wrap, Gated(g, wrap)), Store.CommitCall(0, now),
                       WithCall(Committed(limits, g, wrap, now), None, wrap, Store.Answered(Results(limits, g, wrap))))
  {
    hide CommitBatch, CommittedResults, NoteHighWater, NotePin;
    assert FirstCasLost(g, [wrap], [Absent], 0) == None;
  }

  /** The log has two rows then, the second of epoch 1, and the answer announces it. */
  lemma CommittedRows(limits: Limits, request: CreateRequest, now: Time, wrap: Record)
    requires FoundingCommit(request) && FirstWrap(request, wrap)
    ensures var g := Founded(limits, request, now);
            var rows := Committed(limits, g, wrap, now).records;
            && |g.records| == 1 && HighWater(g.records, 1) == 1
            && |rows| == 2 && rows[1].record.epoch == 1 && HighWater(rows, 1) == 2
            && Announced([wrap], Results(limits, g, wrap)) == [PublishedRecord(2, 1)]
  {
    hide FoundingCommit, FirstWrap, StoreFrom, GroupInv, Apply, PruneAfter, AppliedFor;
    var g := Founded(limits, request, now);
    WrapEpoch(request, wrap);
    FoundedRow(limits, request, now);
    CommitAppends(limits, g, None, [wrap], [Absent], now);
    CommitKeepsRows(limits, g, None, [wrap], [Absent], now);
    StoredIsAnnouncedTrue(limits, g, None, [wrap], [Absent], now, 0);
    var rows := Committed(limits, g, wrap, now).records;
    assert CountAbsent([Absent], 1) == 1 && rows[1].record == At(Committed(limits, g, wrap, now), 1);
    TwoRowsHigh(rows);
    AnnouncedAlone(wrap, Results(limits, g, wrap));
  }

  lemma WrapEpoch(request: CreateRequest, wrap: Record)
    requires FirstWrap(request, wrap)
    ensures wrap.epoch == 1 && !wrap.isCommit
  {
  }

  lemma FoundedRow(limits: Limits, request: CreateRequest, now: Time)
    requires FoundingCommit(request)
    ensures var g := Founded(limits, request, now);
            && |g.records| == 1 && g.nextRecordId == 2 && g.records[0].record.recordId == 1 && g.records[0].record.epoch == 0
            && HighWater(g.records, 1) == 1
  {
    hide Apply, PruneAfter, WellFormedEpochAttachment;
    var g := Founded(limits, request, now);
    assert HighWater(g.records[..0], 1) == 0;
  }

  lemma TwoRowsHigh(rows: seq<RecordRow>)
    requires |rows| == 2 && rows[1].record.epoch <= 1 && rows[1].record.recordId == 2 && rows[0].record.recordId == 1
    ensures HighWater(rows, 1) == 2
  {
    assert HighWater(rows[..1][..0], 1) == 0;
  }

  // ---- the registry's half ----

  const KEY := SubKey(0, GROUP)
  const READ := Snapshot(0, 1, false, 1, 1, 0)
  const MISSED := [Push.Stored(GROUP, PublishedRecord(2, 1))]
  const TOLD_NOTHING := Push.EMPTY.(log := MISSED)
  const REGISTERED := Push.System(Registry(map[KEY := 0], map[0 := {GROUP}], {}, map[0 := Sub(1, 1, 1)], 1), Push.Waiting, false, 0,
                                  map[0 := Push.Origin(GROUP, 1, 1)], MISSED, map[0 := []])

  lemma PublishedToNobody()
    ensures Push.Step(32, Push.EMPTY, Push.DoPublish(GROUP, [PublishedRecord(2, 1)])) == TOLD_NOTHING
  {
  }

  lemma RegisteredAfter()
    ensures Push.Step(32, TOLD_NOTHING, Registration(READ)) == REGISTERED
  {
  }

  // ---- the whole run ----

  ghost predicate Leads(limits: Limits, j: Joint, e: Event, j': Joint) {
    Enabled(j, e) && Step(limits, 32, j, e) == j'
  }

  lemma {:induction false} PathRuns(limits: Limits, path: seq<Joint>, events: seq<Event>)
    requires |path| == |events| + 1 && forall i :: 0 <= i < |events| ==> Leads(limits, path[i], events[i], path[i + 1])
    ensures Exec(limits, 32, path[0], events) == Some(path[|events|])
    decreases |events|
  {
    hide Enabled, Step;
    if |events| != 0 {
      assert Leads(limits, path[0], events[0], path[1]);
      forall i | 0 <= i < |events[1..]| ensures Leads(limits, path[1..][i], events[1..][i], path[1..][i + 1]) {
        assert Leads(limits, path[i + 1], events[i + 1], path[i + 2]);
      }
      PathRuns(limits, path[1..], events[1..]);
    }
  }

  function Before(store: Store.System): Joint {
    Joint(store, Push.EMPTY, map[], map[], map[])
  }

  function Reading(store: Store.System): Joint {
    Joint(store, Push.EMPTY, map[], map[0 := READ], map[])
  }

  function End(store: Store.System): Joint {
    Joint(store, REGISTERED, map[0 := 0], map[], map[0 := READ])
  }

  lemma StoreLeadsBefore(limits: Limits, s: Store.System, e: Store.Event, s': Store.System)
    requires StoreLeads(limits, s, e, s')
    ensures Leads(limits, Before(s), StoreStep(e), Before(s')) && Leads(limits, Reading(s), StoreStep(e), Reading(s'))
  {
    hide Store.Step, Store.Enabled;
  }

  lemma ReadLeads(limits: Limits, s: Store.System)
    requires !s.group.closed && |s.group.records| == 1 && HighWater(s.group.records, 1) == 1
    ensures Leads(limits, Before(s), ReadSnapshot(0, 0, 1, false), Reading(s))
  {
    hide HighWater;
  }

  lemma PublishAndRegisterLead(limits: Limits, s: Store.System)
    requires 0 in s.calls && s.calls[0].phase.Answered? && AnnouncedBy(s.calls[0]) == [PublishedRecord(2, 1)]
    ensures var middle := Joint(s, TOLD_NOTHING, map[0 := 0], map[0 := READ], map[]);
            Leads(limits, Reading(s), PublishCall(0), middle) && Leads(limits, middle, Register(0), End(s))
  {
    hide AnnouncedBy, Push.Step;
    PublishedToNobody();
    RegisteredAfter();
    assert map[0 := READ] - {0} == map[];
  }

  function Run(wrap: Record, now: Time): seq<Event> {
    [StoreStep(Store.Arrive(0, SubmitRequest([wrap], None))), StoreStep(Store.ProbeCall(0)), StoreStep(Store.LockRow(0)),
     StoreStep(Store.ReadState(0)), StoreStep(Store.GateNext(0)), ReadSnapshot(0, 0, 1, false), StoreStep(Store.CommitCall(0, now)),
     PublishCall(0), Register(0)]
  }

  function EndStore(limits: Limits, request: CreateRequest, now: Time, wrap: Record): Store.System
    requires FoundingCommit(request)
  {
    var g := Founded(limits, request, now);
    WithCall(Committed(limits, g, wrap, now), None, wrap, Store.Answered(Results(limits, g, wrap)))
  }

  lemma RunLeads(limits: Limits, request: CreateRequest, now: Time, wrap: Record)
    requires FoundingCommit(request) && FirstWrap(request, wrap)
    ensures Exec(limits, 32, Start(limits, request, now), Run(wrap, now)) == Some(End(EndStore(limits, request, now, wrap)))
  {
    hide FirstWrap, FoundingCommit, Leads, StoreLeads, Before, Reading, End, WithCall, Founded, Committed, Results, Gated, Gate, ProbeBatch, HighWater, Exec, AnnouncedBy;
    var g := Founded(limits, request, now);
    WrapPasses(limits, request, now, wrap);
    CommittedRows(limits, request, now, wrap);
    StartIsBefore(limits, request, now);
    StoreArrives(limits, g, request, wrap);
    StoreLocks(limits, g, wrap);
    StoreGates(limits, g, wrap);
    WrapEpoch(request, wrap);
    StoreCommits(limits, g, wrap, now);
    var s0, s1 := Store.System(g, None, map[], map[]), WithCall(g, None, wrap, Store.Arrived);
    var s2, s3 := WithCall(g, None, wrap, Store.Probed([Absent])), WithCall(g, Some(0), wrap, Store.Locked([Absent]));
    var s4, s5 := WithCall(g, Some(0), wrap, Store.Gating([Absent], StateOf(g), 0, map[], map[])), WithCall(g, Some(0), wrap, Gated(g, wrap));
    var s6 := EndStore(limits, request, now, wrap);
    StoreLeadsBefore(limits, s0, Store.Arrive(0, SubmitRequest([wrap], None)), s1);
    StoreLeadsBefore(limits, s1, Store.ProbeCall(0), s2);
    StoreLeadsBefore(limits, s2, Store.LockRow(0), s3);
    StoreLeadsBefore(limits, s3, Store.ReadState(0), s4);
    StoreLeadsBefore(limits, s4, Store.GateNext(0), s5);
    CallParts(g, Some(0), wrap, Gated(g, wrap));
    ReadLeads(limits, s5);
    StoreLeadsBefore(limits, s5, Store.CommitCall(0, now), s6);
    AnsweredParts(limits, request, now, wrap);
    PublishAndRegisterLead(limits, s6);
    var middle := Joint(s6, TOLD_NOTHING, map[0 := 0], map[0 := READ], map[]);
    PathRuns(limits, [Before(s0), Before(s1), Before(s2), Before(s3), Before(s4), Before(s5), Reading(s5), Reading(s6), middle, End(s6)], Run(wrap, now));
  }

  lemma StartIsBefore(limits: Limits, request: CreateRequest, now: Time)
    requires FoundingCommit(request)
    ensures Start(limits, request, now) == Before(Store.System(Founded(limits, request, now), None, map[], map[]))
  {
  }

  lemma CallParts(g: Group, holder: Option<nat>, wrap: Record, phase: Store.Phase)
    ensures WithCall(g, holder, wrap, phase).group == g
  {
  }

  lemma AnsweredParts(limits: Limits, request: CreateRequest, now: Time, wrap: Record)
    requires FoundingCommit(request) && FirstWrap(request, wrap)
    ensures var s := EndStore(limits, request, now, wrap);
            && 0 in s.calls && s.calls[0].phase.Answered? && AnnouncedBy(s.calls[0]) == [PublishedRecord(2, 1)]
            && s.group == Committed(limits, Founded(limits, request, now), wrap, now)
  {
    hide FirstWrap, FoundingCommit, Founded, Committed, Results, HighWater, Announced;
    CommittedRows(limits, request, now, wrap);
  }

  /**
   For every founding commit and every first wrap after it: stored and announced between the read of a
   subscriber's snapshot and its registration, the wrap is a row the subscriber may read and is not told
   of, and with the loop asleep and nothing to wake it what the subscriber knows falls short of its fetch.
   */
  lemma MissedBetweenReadAndRegistration(limits: Limits, request: CreateRequest, now: Time, wrap: Record)
    requires FoundingCommit(request) && FirstWrap(request, wrap)
    ensures Exec(limits, 32, Start(limits, request, now), Run(wrap, now)).Some?
    ensures var j := Exec(limits, 32, Start(limits, request, now), Run(wrap, now)).value;
            && KEY in j.push.r.byKey && j.push.r.byKey[KEY] == 0 && OfGroup(j, 0) && Unheard(j, 0, 1)
            && j.push.loop.Waiting? && !j.push.signal && j.push.waking == 0
            && j.push.r.objects[0].owed == 1 && HighWater(j.store.group.records, j.push.r.objects[0].readEpoch) == 2
  {
    hide FirstWrap, FoundingCommit, Founded, Committed, EndStore, HighWater, Exec;
    RunLeads(limits, request, now, wrap);
    AnsweredParts(limits, request, now, wrap);
    CommittedRows(limits, request, now, wrap);
    var s := EndStore(limits, request, now, wrap);
    assert s.group.records[1].record == At(s.group, 1);
  }

  /** And in every run from there it is not told of the wrap exactly until a call that tells of it is published again. */
  lemma MissedUntilPublishedAgain(limits: Limits, request: CreateRequest, now: Time, wrap: Record, more: seq<Event>)
    requires FoundingCommit(request) && FirstWrap(request, wrap)
    requires Exec(limits, 32, Start(limits, request, now), Run(wrap, now)).Some?
    requires Exec(limits, 32, Exec(limits, 32, Start(limits, request, now), Run(wrap, now)).value, more).Some?
    ensures var j := Exec(limits, 32, Start(limits, request, now), Run(wrap, now)).value;
            var j' := Exec(limits, 32, j, more).value;
            && OfGroup(j', 0)
            && (Unheard(j', 0, 1) <==> forall c :: TellsOf(j', c, 1, j'.push.r.objects[0].readEpoch) && c in j'.published ==> c in j.published)
  {
    hide FirstWrap, FoundingCommit, JointInv, HighWater, Exec, Unheard, TellsOf, Start, Run;
    var j := Exec(limits, 32, Start(limits, request, now), Run(wrap, now)).value;
    MissedBetweenReadAndRegistration(limits, request, now, wrap);
    StartKeepsInv(limits, 32, request, now);
    RunKeepsInv(limits, 32, Start(limits, request, now), Run(wrap, now));
    UnheardUntilPublished(limits, 32, j, more, 0, 1);
  }

  // ---- one such founding commit and wrap ----

  const SIXTEEN: Bytes := seq(16, _ => 0)
  const THIRTY_TWO: Bytes := seq(32, _ => 0)
  const COMMIT := Record(
    SIXTEEN, 0, 0, true, CLASS_PERMANENT, 0, 0, THIRTY_TWO, [1], THIRTY_TWO, None, None,
    Some(Attachment(AttachmentEpoch, Some(EpochAttachment(1, THIRTY_TWO, THIRTY_TWO, 0, 0, 0, None, 1)), None, None, None, None)), 0, None)
  const WRAP := COMMIT.(
    epoch := 1, streamIndex := 1, isCommit := false,
    attachment := Some(Attachment(AttachmentWrap, None, Some(WrapTag(SIXTEEN, 0)), None, None, None)))

  lemma SuchACommitAndWrap()
    ensures FoundingCommit(CreateRequest(COMMIT, THIRTY_TWO, None)) && ValidateRecord(COMMIT).None?
    ensures FirstWrap(CreateRequest(COMMIT, THIRTY_TWO, None), WRAP)
  {
    assert ValidateRecord(WRAP).None?;
    assert ValidateFrom([WRAP], 1).None?;
    assert ValidateFrom([WRAP], 0).None?;
  }
}
