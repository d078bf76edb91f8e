/** The loser protocol over whole runs: what becomes of a commit that comes to the lock after its epoch was won. */
module LateCommits {
  import opened Common
  import opened Records
  import opened GroupTransaction
  import opened GroupLog
  import opened GroupBatch
  import opened GroupFetch
  import opened GroupRuns

  /** The one answer a lost commit gets: that it lost, to what record, and an epoch past its own. */
  ghost predicate ToldItLost(g: Group, record: Record, results: seq<SubmitResult>) {
    && record.epoch in g.commits && |results| == 1
    && results[0] == SubmitResult(ReasonCommitLost, 0, results[0].currentEpoch, Some(g.commits[record.epoch].record), None)
    && record.epoch < results[0].currentEpoch <= g.currentEpoch
  }

  /**
   Where a commit that was probed absent and whose epoch has been won may stand. `held`: it took the
   lock of an open group, so that nothing can close the group before it answers.
   */
  ghost predicate LatePhase(g: Group, record: Record, held: bool, phase: Phase) {
    match phase
    case Arrived => false
    case Probed(outcomes) => !held && outcomes == [Absent]
    case Locked(outcomes) => outcomes == [Absent] && (held ==> !g.closed)
    case Gating(outcomes, state, next, _, _) => outcomes == [Absent] && next == 0 && state == StateOf(g) && !g.closed
    case Refusing(outcomes, state, offender, reason) =>
      outcomes == [Absent] && offender == 0 && reason == ReasonCommitLost && state == StateOf(g) && !g.closed
    case Answered(results) =>
      ToldItLost(g, record, results) || (!held && g.closed && results == RefuseUnavailable([Absent]))
  }

  ghost predicate Late(s: System, t: nat, record: Record, held: bool) {
    && t in s.calls && s.calls[t].request.records == [record]
    && record.isCommit && record.epoch < s.group.currentEpoch && record.epoch in s.group.commits
    && LatePhase(s.group, record, held, s.calls[t].phase)
  }

  lemma LostGate(g: Group, record: Record, keys: Option<EpochKeyDelivery>, highWater: map<Bytes, nat>, pinned: map<Bytes, Bytes>)
    requires record.isCommit && record.epoch in g.commits
    ensures Gate(g, StateOf(g), record, keys, highWater, pinned) == ReasonCommitLost
  {
  }

  lemma FilledLoss(g: Group, record: Record)
    requires record.isCommit && record.epoch in g.commits && record.epoch < g.currentEpoch && !g.closed
    ensures ToldItLost(g, record, RefuseBatch(Some(g), [record], [Absent], g.currentEpoch, 0, ReasonCommitLost))
  {
  }

  /** Its own steps take it to the lock, past the lost gate and to the answer. */
  lemma OwnStepKeepsLate(limits: Limits, s: System, e: Event, t: nat, record: Record, held: bool)
    requires SystemInv(s) && Enabled(s, e) && Quiet(e) && e.t == t && Late(s, t, record, held)
    ensures Late(Step(limits, s, e), t, record, held)
  {
    hide SystemInv, NextPhase, LatePhase;
    NextIsLate(s, e, t, record, held);
    StepIsNextPhase(limits, s, e);
  }

  lemma StepIsNextPhase(limits: Limits, s: System, e: Event)
    requires Enabled(s, e) && Quiet(e)
    ensures Step(limits, s, e) == Moved(s, e.t, NextPhase(s, e))
  {
    hide ProbeBatch, EarlyResults, AfterGate, RefuseBatch;
  }

  lemma NextIsLate(s: System, e: Event, t: nat, record: Record, held: bool)
    requires Enabled(s, e) && Quiet(e) && e.t == t && Late(s, t, record, held)
    ensures LatePhase(s.group, record, held, NextPhase(s, e))
  {
    hide Gate, RefuseBatch, RefuseUnavailable, ToldItLost, NoteHighWater, NotePin, ProbeBatch, EarlyResults;
    var p := s.calls[t].phase;
    match e
    case GateNext(_) => LostGate(s.group, record, s.calls[t].request.keys, p.highWater, p.pinned);
    case FillRefusal(_) => FilledLoss(s.group, record);
    case _ => AbsentIsUnsettled();
  }

  lemma AbsentIsUnsettled()
    ensures !AnsweredByProbe([Absent])
  {
    assert [Absent][0] == Absent;
  }

  lemma AnswerStands(g: Group, later: Group, record: Record, results: seq<SubmitResult>)
    requires ToldItLost(g, record, results) && Extends(g, later)
    ensures ToldItLost(later, record, results)
  {
  }

  /** While it holds the lock nobody else moves the group; what it was told before or after stays true. */
  lemma OtherStepKeepsLate(limits: Limits, s: System, e: Event, t: nat, record: Record, held: bool)
    requires SystemInv(s) && Enabled(s, e) && Late(s, t, record, held)
    requires !Quiet(e) || e.t != t
    ensures Late(Step(limits, s, e), t, record, held)
  {
    hide GroupInv, CallSound, ReaderSound, ToldItLost, AfterCommit, RefuseUnavailable, Extends, NextPhase;
    var s' := Step(limits, s, e);
    GroupExtends(limits, s, e);
    if e.CommitCall? && e.t != t { LockIsExclusive(s, e.t); }
    if s.calls[t].phase.Answered? && ToldItLost(s.group, record, s.calls[t].phase.results) {
      AnswerStands(s.group, s'.group, record, s.calls[t].phase.results);
    }
  }

  lemma GroupExtends(limits: Limits, s: System, e: Event)
    requires SystemInv(s) && Enabled(s, e)
    ensures var later := Step(limits, s, e).group;
            && Extends(s.group, later) && s.group.currentEpoch <= later.currentEpoch
            && s.group.commits.Keys <= later.commits.Keys && (s.group.closed ==> later.closed)
  {
    hide SystemInv;
    StepKeepsInv(limits, s, e);
  }

  lemma {:induction false} LateThroughout(limits: Limits, s: System, events: seq<Event>, t: nat, record: Record, held: bool)
    requires SystemInv(s) && Exec(limits, s, events).Some? && Late(s, t, record, held)
    ensures Late(Exec(limits, s, events).value, t, record, held)
    decreases |events|
  {
    hide SystemInv, Late, Step, Enabled;
    if |events| != 0 {
      StepKeepsInv(limits, s, events[0]);
      if Quiet(events[0]) && events[0].t == t {
        OwnStepKeepsLate(limits, s, events[0], t, record, held);
      } else {
        OtherStepKeepsLate(limits, s, events[0], t, record, held);
      }
      LateThroughout(limits, Step(limits, s, events[0]), events[1..], t, record, held);
    }
  }

  /** A call under the lock of an open group, its commit probed absent and its epoch won, is late. */
  lemma LockedIsLate(s: System, t: nat, i: nat)
    requires SystemInv(s) && t in s.calls && HoldsRow(s.calls[t].phase) && !s.group.closed
    requires i < |s.calls[t].request.records| == |s.calls[t].phase.outcomes|
    requires s.calls[t].phase.outcomes[i] == Absent
    requires s.calls[t].request.records[i].isCommit && s.calls[t].request.records[i].epoch < s.group.currentEpoch
    ensures Late(s, t, s.calls[t].request.records[i], true)
  {
    hide GroupInv, LockSound, ReaderSound, Gate;
    var call := s.calls[t];
    var record := call.request.records[i];
    assert CallSound(s.group, call);
    assert call.request.records == [record] && call.phase.outcomes == [Absent];
    EpochHasItsCommit(s.group, record.epoch);
    LostGate(s.group, record, call.request.keys, map[], map[]);
  }

  /**
   In every run, a commit that was probed absent in front of the lock and holds it when its epoch has
   already been won, whoever has claimed its stream index since, is answered that it lost, with the
   record that won; it is never told that its epoch is stale, and until it is answered it holds the lock.
   */
  lemma LateCommitHasLost(limits: Limits, s: System, events: seq<Event>, t: nat, i: nat)
    requires SystemInv(s) && Exec(limits, s, events).Some?
    requires t in s.calls && HoldsRow(s.calls[t].phase) && !s.group.closed
    requires i < |s.calls[t].request.records| == |s.calls[t].phase.outcomes|
    requires s.calls[t].phase.outcomes[i] == Absent
    requires s.calls[t].request.records[i].isCommit && s.calls[t].request.records[i].epoch < s.group.currentEpoch
    ensures var later := Exec(limits, s, events).value;
            var record := s.calls[t].request.records[i];
            && t in later.calls
            && (HoldsRow(later.calls[t].phase) ||
                (later.calls[t].phase.Answered? && ToldItLost(later.group, record, later.calls[t].phase.results)))
            && WonByTheLast(later.group, record.epoch)
  {
    hide SystemInv, Exec, ToldItLost;
    var record := s.calls[t].request.records[i];
    LockedIsLate(s, t, i);
    LateThroughout(limits, s, events, t, record, true);
    RunKeepsInv(limits, s, events);
    WinnerClosesTheEpoch(Exec(limits, s, events).value, record.epoch);
  }

  /** The winner of an epoch is a stored commit of it, and nothing of that epoch comes after it. */
  ghost predicate WonByTheLast(g: Group, epoch: nat) {
    && epoch in g.commits
    && var won := g.commits[epoch];
       && won.record.isCommit && won.record.epoch == epoch
       && 1 <= won.recordId <= |g.records| && won.record == At(g, won.recordId - 1)
       && forall k: nat :: won.recordId <= k < |g.records| ==> epoch < At(g, k).epoch
  }

  lemma WinnerClosesTheEpoch(s: System, epoch: nat)
    requires SystemInv(s) && epoch < s.group.currentEpoch
    ensures WonByTheLast(s.group, epoch)
  {
    hide GroupInv, LockSound, CallSound, ReaderSound, EpochRowMatches;
    EpochHasItsCommit(s.group, epoch);
  }

  /**
   The same commit seen from in front of the lock: once its epoch is won it is answered that it lost,
   unless the group closes before it takes the lock, and then as every call to a closed group is.
   */
  lemma ProbedLateCommit(limits: Limits, s: System, events: seq<Event>, t: nat, record: Record)
    requires SystemInv(s) && Exec(limits, s, events).Some?
    requires t in s.calls && s.calls[t].request.records == [record] && s.calls[t].phase == Probed([Absent])
    requires record.isCommit && record.epoch < s.group.currentEpoch
    ensures var later := Exec(limits, s, events).value;
            && t in later.calls
            && (later.calls[t].phase.Answered? ==>
                  var results := later.calls[t].phase.results;
                  ToldItLost(later.group, record, results) || (later.group.closed && results == RefuseUnavailable([Absent])))
  {
    hide SystemInv, Exec, ToldItLost, RefuseUnavailable;
    WonAlready(s, record.epoch);
    LateThroughout(limits, s, events, t, record, false);
  }

  lemma WonAlready(s: System, epoch: nat)
    requires SystemInv(s) && epoch < s.group.currentEpoch
    ensures epoch in s.group.commits
  {
    hide GroupInv, LockSound, CallSound, ReaderSound, EpochRowMatches;
    EpochHasItsCommit(s.group, epoch);
  }
}
