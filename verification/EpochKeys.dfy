/**
 The keys that travel beside a commit: the API's batch rule and alignment of `epoch_keys` against
 the records, and what the store then makes of the one delivery they come down to.
 */
module EpochKeys {
  import opened Common
  import opened Records

  datatype AlignmentError =
    | LengthMismatch | OnNonCommit | KeysMissing | KeysUnwanted | EmptyEntry | KeyWidth

  /** `index` is absent where the refusal belongs to the whole submission. */
  datatype Alignment =
    | Aligned(wanted: Option<EpochKeyDelivery>, at: Option<nat>)
    | Misaligned(index: Option<nat>, error: AlignmentError)

  function DeliveryAt(deliveries: seq<Option<EpochKeyDelivery>>, i: nat): Option<EpochKeyDelivery> {
    if i < |deliveries| then deliveries[i] else None
  }

  /** What is wrong with one record and the delivery beside it, the earliest clause first. */
  function Fault(record: Record, delivery: Option<EpochKeyDelivery>): Option<AlignmentError> {
    if !record.isCommit then if delivery.Some? then Some(OnNonCommit) else None
    else if KindOf(record) == AttachmentEpochDigest && delivery.None? then Some(KeysMissing)
    else if KindOf(record) != AttachmentEpochDigest && delivery.Some? then Some(KeysUnwanted)
    else if delivery.None? then None
    else if |delivery.value.writeKey| == 0 && |delivery.value.readKey| == 0 then Some(EmptyEntry)
    else if |delivery.value.writeKey| != EPOCH_KEY_BYTES || |delivery.value.readKey| != EPOCH_KEY_BYTES then Some(KeyWidth)
    else None
  }

  predicate LengthsAgree(records: seq<Record>, deliveries: seq<Option<EpochKeyDelivery>>) {
    |deliveries| == 0 || |deliveries| == |records|
  }

  ghost predicate FaultlessTo(records: seq<Record>, deliveries: seq<Option<EpochKeyDelivery>>, n: nat) {
    forall i: nat :: i < n && i < |records| ==> Fault(records[i], DeliveryAt(deliveries, i)).None?
  }

  /** The delivery a run over the first `n` records leaves: the last one, if any. */
  ghost predicate LastOf(deliveries: seq<Option<EpochKeyDelivery>>, n: nat, wanted: Option<EpochKeyDelivery>, at: Option<nat>) {
    match at
    case None => wanted.None? && forall i: nat :: i < n ==> DeliveryAt(deliveries, i).None?
    case Some(k) => k < n && wanted.Some? && DeliveryAt(deliveries, k) == wanted && forall i: nat :: k < i < n ==> DeliveryAt(deliveries, i).None?
  }

  /** The alignment rule: the first fault is named with its index, and with none the delivery comes out. */
  method Align(records: seq<Record>, deliveries: seq<Option<EpochKeyDelivery>>) returns (a: Alignment)
    ensures a == Misaligned(None, LengthMismatch) <==> !LengthsAgree(records, deliveries)
    ensures a.Aligned? <==> LengthsAgree(records, deliveries) && FaultlessTo(records, deliveries, |records|)
    ensures a.Aligned? ==> LastOf(deliveries, |records|, a.wanted, a.at)
    ensures a.Misaligned? && a.index.Some? ==>
              && a.index.value < |records| && FaultlessTo(records, deliveries, a.index.value)
              && Fault(records[a.index.value], DeliveryAt(deliveries, a.index.value)) == Some(a.error)
    ensures a.Misaligned? && a.index.None? ==> a.error == LengthMismatch
  {
    if |deliveries| != 0 && |deliveries| != |records| {
      return Misaligned(None, LengthMismatch);
    }
    var wanted: Option<EpochKeyDelivery>, at: Option<nat> := None, None;
    for index := 0 to |records|
      invariant FaultlessTo(records, deliveries, index) && LastOf(deliveries, index, wanted, at)
    {
      var delivery := if index < |deliveries| then deliveries[index] else None;
      assert delivery == DeliveryAt(deliveries, index);
      var isCommit := records[index].isCommit;
      var digestKind := KindOf(records[index]) == AttachmentEpochDigest;
      if delivery.Some? && !isCommit {
        return Misaligned(Some(index), OnNonCommit);
      }
      if !isCommit {
        continue;
      }
      if digestKind && delivery.None? {
        return Misaligned(Some(index), KeysMissing);
      }
      if !digestKind && delivery.Some? {
        return Misaligned(Some(index), KeysUnwanted);
      }
      if delivery.None? {
        continue;
      }
      if |delivery.value.writeKey| == 0 && |delivery.value.readKey| == 0 {
        return Misaligned(Some(index), EmptyEntry);
      }
      if |delivery.value.writeKey| != EPOCH_KEY_BYTES || |delivery.value.readKey| != EPOCH_KEY_BYTES {
        return Misaligned(Some(index), KeyWidth);
      }
      wanted, at := delivery, Some(index);
    }
    return Aligned(wanted, at);
  }

  // ---- the batch's shape ----

  datatype Refusal = Passed(keys: Option<EpochKeyDelivery>) | Refused(reason: Reason, index: Option<nat>)

  /** The relation of an attachment to its record: an epoch attachment of either kind iff a commit. */
  predicate KindFits(record: Record) {
    IsEpochAttachmentKind(KindOf(record)) == record.isCommit
  }

  ghost predicate BatchFits(records: seq<Record>, max: nat) {
    && 0 < |records| <= max
    && (forall i :: 0 <= i < |records| ==> KindFits(records[i]))
    && (|records| != 1 ==> forall i :: 0 <= i < |records| ==> !records[i].isCommit)
  }

  /** What a submission that passed looks like to the store. */
  ghost predicate PassedWith(records: seq<Record>, deliveries: seq<Option<EpochKeyDelivery>>, max: nat, keys: Option<EpochKeyDelivery>) {
    && BatchFits(records, max) && LengthsAgree(records, deliveries) && FaultlessTo(records, deliveries, |records|)
    && exists at: Option<nat> :: LastOf(deliveries, |records|, keys, at)
  }

  /** What a record's own shape comes to: the checks before its attachment's, that one, and the projection's after it. */
  function ShapeReason(record: Record, before: Reason, after: Reason): Reason {
    if before != ReasonOk then before else if !KindFits(record) then ReasonRejected else after
  }

  ghost predicate ShapedTo(records: seq<Record>, before: seq<Reason>, after: seq<Reason>, n: nat)
    requires |before| == |records| == |after|
  {
    forall i: nat :: i < n && i < |records| ==> ShapeReason(records[i], before[i], after[i]) == ReasonOk
  }

  ghost predicate Sized(groupId: Bytes, records: seq<Record>, max: nat) {
    |groupId| == GROUP_ID_BYTES && 0 < |records| <= max
  }

  /**
   The submission's own clauses, each record's shape, the rule that a commit stands alone, then the
   alignment and the digest. `before` and `after` are the verdicts of the parse and sizes of each
   record and of its projection; `matches` is whether the delivered keys are those of the digest.
   */
  method CheckBatch(groupId: Bytes, records: seq<Record>, before: seq<Reason>, after: seq<Reason>,
                    deliveries: seq<Option<EpochKeyDelivery>>, max: nat, matches: bool)
    returns (r: Refusal)
    requires |before| == |records| == |after|
    ensures r.Passed? ==> PassedWith(records, deliveries, max, r.keys)
    ensures r.Passed? <==>
              && Sized(groupId, records, max) && ShapedTo(records, before, after, |records|) && BatchFits(records, max)
              && LengthsAgree(records, deliveries) && FaultlessTo(records, deliveries, |records|)
              && (matches || forall i: nat :: i < |records| ==> DeliveryAt(deliveries, i).None?)
    ensures r.Refused? && !Sized(groupId, records, max) ==>
              r == Refused(if |groupId| == GROUP_ID_BYTES && max < |records| && 0 < |records| then ReasonOversize else ReasonRejected, None)
    ensures r.Refused? && Sized(groupId, records, max) && !ShapedTo(records, before, after, |records|) ==>
              && r.index.Some? && r.index.value < |records| && ShapedTo(records, before, after, r.index.value)
              && r.reason == ShapeReason(records[r.index.value], before[r.index.value], after[r.index.value]) != ReasonOk
    ensures r.Refused? && Sized(groupId, records, max) && ShapedTo(records, before, after, |records|) ==> r.reason == ReasonRejected
  {
    if |groupId| != GROUP_ID_BYTES {
      return Refused(ReasonRejected, None);
    }
    if |records| == 0 {
      return Refused(ReasonRejected, None);
    }
    if max < |records| {
      return Refused(ReasonOversize, None);
    }
    for i := 0 to |records|
      invariant ShapedTo(records, before, after, i)
    {
      if before[i] != ReasonOk {
        return Refused(before[i], Some(i));
      }
      if IsEpochAttachmentKind(KindOf(records[i])) != records[i].isCommit {
        return Refused(ReasonRejected, Some(i));
      }
      if after[i] != ReasonOk {
        return Refused(after[i], Some(i));
      }
    }
    assert forall i: nat :: i < |records| ==> ShapeReason(records[i], before[i], after[i]) == ReasonOk && KindFits(records[i]);
    var commits := 0;
    for i := 0 to |records|
      invariant 0 <= commits <= i && (commits == 0 <==> forall j :: 0 <= j < i ==> !records[j].isCommit)
    {
      if records[i].isCommit {
        commits := commits + 1;
      }
    }
    if commits != 0 && |records| != 1 {
      return Refused(ReasonRejected, None);
    }
    var a := Align(records, deliveries);
    if a.Misaligned? {
      return Refused(ReasonRejected, a.index);
    }
    if a.wanted.Some? && !matches {
      return Refused(ReasonRejected, a.at);
    }
    return Passed(a.wanted);
  }

  /**
   The store's own reading of a commit that passed never fails over whether keys came beside it: it
   finds an opening exactly when the attachment has its body, and delivered keys are of full width.
   */
  lemma PassedOpensWithItsKeys(records: seq<Record>, deliveries: seq<Option<EpochKeyDelivery>>, max: nat,
                               keys: Option<EpochKeyDelivery>, i: nat)
    requires PassedWith(records, deliveries, max, keys) && i < |records| && records[i].isCommit
    ensures OpeningOf(records[i], keys).Some? <==> OpensEpoch(records[i]).Some?
    ensures keys.Some? <==> KindOf(records[i]) == AttachmentEpochDigest
    ensures keys.Some? ==> |keys.value.writeKey| == |keys.value.readKey| == EPOCH_KEY_BYTES
  {
    assert |records| == 1 && i == 0;
    assert KindFits(records[0]);
    assert Fault(records[0], DeliveryAt(deliveries, 0)).None?;
    KeysAreTheOnly(records, deliveries, max, keys);
  }

  lemma KeysAreTheOnly(records: seq<Record>, deliveries: seq<Option<EpochKeyDelivery>>, max: nat, keys: Option<EpochKeyDelivery>)
    requires PassedWith(records, deliveries, max, keys) && |records| == 1
    ensures keys == DeliveryAt(deliveries, 0)
  {
    var at: Option<nat> :| LastOf(deliveries, |records|, keys, at);
    if at.None? { assert DeliveryAt(deliveries, 0).None?; }
  }

  /** A passed batch with no commit carries no keys into the store. */
  lemma NoCommitNoKeys(records: seq<Record>, deliveries: seq<Option<EpochKeyDelivery>>, max: nat, keys: Option<EpochKeyDelivery>)
    requires PassedWith(records, deliveries, max, keys) && forall i :: 0 <= i < |records| ==> !records[i].isCommit
    ensures keys.None?
  {
    forall i: nat | i < |records| ensures DeliveryAt(deliveries, i).None? {
      assert Fault(records[i], DeliveryAt(deliveries, i)).None?;
    }
  }

  /** A passed submission's list is empty, or the one entry of one digest commit, exactly when no entry of it is null. */
  lemma OnlyTwoLengths(records: seq<Record>, deliveries: seq<Option<EpochKeyDelivery>>, max: nat, keys: Option<EpochKeyDelivery>)
    requires PassedWith(records, deliveries, max, keys)
    ensures (forall i :: 0 <= i < |deliveries| ==> deliveries[i].Some?) <==>
              || deliveries == []
              || (|records| == 1 && deliveries == [keys] && records[0].isCommit && KindOf(records[0]) == AttachmentEpochDigest)
  {
    if deliveries != [] {
      assert Fault(records[0], DeliveryAt(deliveries, 0)).None?;
      if deliveries[0].Some? {
        assert |records| == 1;
        KeysAreTheOnly(records, deliveries, max, keys);
      }
    }
  }

  /** Two null entries beside any two ordinary records are passed: a third length. */
  lemma NullEntriesPass(record: Record)
    requires !record.isCommit && KindFits(record)
    ensures PassedWith([record, record], [None, None], 2, None)
  {
    assert LastOf([None, None], 2, None, None);
  }

  /** Conversely the rules refuse nothing the store would open: its own opening, at full width, is always passed. */
  lemma OpenableIsPassed(record: Record, keys: Option<EpochKeyDelivery>, max: nat)
    requires record.isCommit && OpeningOf(record, keys).Some? && 0 < max
    requires keys.Some? ==> |keys.value.writeKey| == |keys.value.readKey| == EPOCH_KEY_BYTES
    ensures PassedWith([record], if keys.Some? then [keys] else [], max, keys)
  {
    var deliveries := if keys.Some? then [keys] else [];
    assert DeliveryAt(deliveries, 0) == keys;
    assert LastOf(deliveries, 1, keys, if keys.Some? then Some(0) else None);
  }
}
