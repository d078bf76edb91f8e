/**
 The columns of a stored record, the attachment a record may carry, the epoch a commit opens and
 the retention policy it is given: the value types of store/store.go and the pure rules over them.
 */
module Records {
  import opened Common

  const GROUP_ID_BYTES := 32
  const SENDER_HANDLE_BYTES := 16
  const BODY_HASH_BYTES := 32
  const RECOVERY_HANDLE_BYTES := 16
  const WRAP_TARGET_HANDLE_BYTES := 16
  const BLOB_ID_BYTES := 32
  const GROUP_CONTEXT_HASH_BYTES := 32
  const VERIFY_PUB_BYTES := 32
  const EPOCH_KEY_BYTES := 32
  const FIRST_RECORD_ID: nat := 1

  const CLASS_PERMANENT: nat := 0x00
  const CLASS_DURABLE: nat := 0x01
  const CLASS_MEDIA: nat := 0x02
  const CLASS_EPH_BASE: nat := 0x10
  const CLASS_EPH_MAX: nat := 0x15
  const EPH_WINDOW_MAX: nat := 0x7FFF_FFFF_FFFF_FFFF

  const DURABLE_UNSET: nat := 0
  const DURABLE_INDEFINITE: nat := 0xFFFF_FFFF

  /** The answers a request can be given; the transaction and the link box arms use subsets of them. */
  datatype Reason =
    | ReasonOk
    | ReasonRetentionClamped
    | ReasonRejected
    | ReasonCommitLost
    | ReasonEpochStale
    | ReasonEpochIncomplete
    | ReasonStreamIndexReused
    | ReasonStreamIndexRegressed
    | ReasonCardRetired
    | ReasonCardRateLimited
    | ReasonOversize
    | ReasonInternal

  /** Both answers a record that landed can get; every other one is a refusal. */
  predicate Accepted(reason: Reason) {
    reason == ReasonOk || reason == ReasonRetentionClamped
  }

  datatype AttachmentKind =
    | AttachmentNone | AttachmentEpoch | AttachmentWrap
    | AttachmentRecovery | AttachmentEpochComplete | AttachmentEpochDigest

  datatype EpochAttachment = EpochAttachment(
    epoch: nat, writeKey: Bytes, readKey: Bytes, algId: nat, mediaTtl: nat, durableTtl: nat,
    contextHash: Option<Bytes>, expectedWraps: nat)

  datatype EpochDigestAttachment = EpochDigestAttachment(
    epoch: nat, algId: nat, mediaTtl: nat, durableTtl: nat,
    contextHash: Option<Bytes>, expectedWraps: nat, keysDigest: Bytes)

  datatype WrapTag = WrapTag(targetHandle: Bytes, leafIndex: nat)

  datatype RecoveryTag = RecoveryTag(handle: Bytes, verifyPub: Bytes, algId: nat)

  datatype EpochCompleteTag = EpochCompleteTag(epoch: nat, wrapCount: nat)

  /** The kind and, beside it, one nullable body per kind, exactly as the source pairs them. */
  datatype Attachment = Attachment(
    kind: AttachmentKind,
    epoch: Option<EpochAttachment>,
    wrap: Option<WrapTag>,
    recovery: Option<RecoveryTag>,
    epochComplete: Option<EpochCompleteTag>,
    epochDigest: Option<EpochDigestAttachment>)

  /**
   One record. `headHash` is the SHA-256 of `ctHead`, carried beside it as a value, so that nothing
   in the model depends on the hash being injective.
   */
  datatype Record = Record(
    sender: Bytes,
    epoch: nat,
    streamIndex: nat,
    isCommit: bool,
    retentionClass: nat,
    ephWindow: nat,
    sizeBucket: nat,
    bodyHash: Bytes,
    ctHead: Bytes,
    headHash: Bytes,
    ctBody: Option<Bytes>,
    blobId: Option<Bytes>,
    attachment: Option<Attachment>,
    recordId: nat,
    pruneAfter: Option<Time>)

  /** The two keys that travel beside a commit rather than inside it. */
  datatype EpochKeyDelivery = EpochKeyDelivery(writeKey: Bytes, readKey: Bytes)

  function KindOf(record: Record): AttachmentKind {
    if record.attachment.None? then AttachmentNone else record.attachment.value.kind
  }

  function RecoveryTagOf(record: Record): Option<RecoveryTag> {
    if KindOf(record) != AttachmentRecovery then None else record.attachment.value.recovery
  }

  function EpochCompleteTagOf(record: Record): Option<EpochCompleteTag> {
    if KindOf(record) != AttachmentEpochComplete then None else record.attachment.value.epochComplete
  }

  predicate IsEpochAttachmentKind(kind: AttachmentKind) {
    kind == AttachmentEpoch || kind == AttachmentEpochDigest
  }

  /** A wrap (a snapshot among them) or a marker may be written before the epoch's fan-out closes. */
  predicate ExemptFromEpochComplete(record: Record) {
    KindOf(record) == AttachmentWrap || KindOf(record) == AttachmentEpochComplete
  }

  function RecordBytes(record: Record): nat {
    |record.ctHead| + if record.ctBody.Some? then |record.ctBody.value| else 0
  }

  // ---- the epoch a commit opens ----

  datatype EpochOpening = EpochOpening(
    epoch: nat, algId: nat, mediaTtl: nat, durableTtl: nat,
    contextHash: Option<Bytes>, expectedWraps: nat, writeKey: Bytes, readKey: Bytes)

  /** The opening a commit announces, given the delivery that arrived beside it. */
  function OpeningOf(record: Record, keys: Option<EpochKeyDelivery>): Option<EpochOpening> {
    match KindOf(record)
    case AttachmentEpoch =>
      var body := record.attachment.value.epoch;
      if body.None? || keys.Some? then None
      else
        var a := body.value;
        Some(EpochOpening(a.epoch, a.algId, a.mediaTtl, a.durableTtl, a.contextHash,
                          a.expectedWraps, a.writeKey, a.readKey))
    case AttachmentEpochDigest =>
      var body := record.attachment.value.epochDigest;
      if body.None? || keys.None? then None
      else
        var a := body.value;
        Some(EpochOpening(a.epoch, a.algId, a.mediaTtl, a.durableTtl, a.contextHash,
                          a.expectedWraps, keys.value.writeKey, keys.value.readKey))
    case _ => None
  }

  /** The wrap count a commit announces for the epoch it opens, read off the record alone. */
  function AnnouncedWraps(record: Record): Option<nat> {
    if KindOf(record) == AttachmentEpoch && record.attachment.value.epoch.Some? then
      Some(record.attachment.value.epoch.value.expectedWraps)
    else if KindOf(record) == AttachmentEpochDigest && record.attachment.value.epochDigest.Some? then
      Some(record.attachment.value.epochDigest.value.expectedWraps)
    else None
  }

  /** The epoch a commit opens, read off the record alone. */
  function OpensEpoch(record: Record): Option<nat> {
    if KindOf(record) == AttachmentEpoch && record.attachment.value.epoch.Some? then
      Some(record.attachment.value.epoch.value.epoch)
    else if KindOf(record) == AttachmentEpochDigest && record.attachment.value.epochDigest.Some? then
      Some(record.attachment.value.epochDigest.value.epoch)
    else None
  }

  predicate WellFormedEpochAttachment(record: Record, opens: nat, keys: Option<EpochKeyDelivery>) {
    var opening := OpeningOf(record, keys);
    && opening.Some?
    && opening.value.epoch == opens
    && |opening.value.writeKey| == EPOCH_KEY_BYTES
    && |opening.value.readKey| == EPOCH_KEY_BYTES
    && opening.value.expectedWraps != 0
    && (opening.value.contextHash.Some? ==> |opening.value.contextHash.value| == GROUP_CONTEXT_HASH_BYTES)
  }

  // ---- retention ----

  datatype Limits = Limits(
    mediaMax: nat, mediaDefault: nat, durableMax: nat, durableDefault: nat, durableMin: nat)

  datatype Policy = Policy(media: nat, durable: Option<nat>)

  datatype Applied = Applied(
    policy: Policy, mediaClampedDown: bool, durableFlooredUp: bool,
    durableClampedDown: bool, durableDefaulted: bool)

  function ApplyMedia(limits: Limits, requested: nat): (nat, bool) {
    var media := if requested == 0 then limits.mediaDefault else requested;
    if limits.mediaMax != 0 && limits.mediaMax < media then (limits.mediaMax, true) else (media, false)
  }

  /** The policy a commit is stored under, and which of the server's limits moved it. */
  function Apply(limits: Limits, opening: EpochOpening): Applied {
    var (media, clamped) := ApplyMedia(limits, opening.mediaTtl);
    if opening.durableTtl == DURABLE_UNSET then
      var durable :=
        if limits.durableDefault == 0 && limits.durableMax == 0 then None
        else if limits.durableDefault == 0 then Some(limits.durableMax)
        else if limits.durableMax == 0 then Some(limits.durableDefault)
        else Some(if limits.durableDefault < limits.durableMax then limits.durableDefault else limits.durableMax);
      Applied(Policy(media, durable), clamped, false, false, true)
    else if opening.durableTtl == DURABLE_INDEFINITE then
      if limits.durableMax == 0 then Applied(Policy(media, None), clamped, false, false, false)
      else Applied(Policy(media, Some(limits.durableMax)), clamped, false, true, false)
    else
      var floored := opening.durableTtl < limits.durableMin;
      var value := if floored then limits.durableMin else opening.durableTtl;
      var capped := limits.durableMax != 0 && limits.durableMax < value;
      Applied(Policy(media, Some(if capped then limits.durableMax else value)), clamped, floored, capped, false)
  }

  predicate Clamped(applied: Applied) {
    applied.mediaClampedDown || applied.durableFlooredUp || applied.durableClampedDown
  }

  function AcceptanceReason(applied: Option<Applied>): (r: Reason)
    ensures Accepted(r)
  {
    if applied.Some? && Clamped(applied.value) then ReasonRetentionClamped else ReasonOk
  }

  const EPH_BUCKET_SECONDS: seq<nat> := [0, 3600, 28800, 86400, 604800, 2419200]

  /** When the row may be pruned, in seconds; the classes outside the table are refused before storage. */
  function PruneAfter(now: Time, retentionClass: nat, policy: Policy): Option<Time> {
    if retentionClass == CLASS_PERMANENT then None
    else if retentionClass == CLASS_DURABLE then
      if policy.durable.None? then None else Some(now + policy.durable.value)
    else if retentionClass == CLASS_MEDIA then Some(now + policy.media)
    else if CLASS_EPH_BASE <= retentionClass <= CLASS_EPH_MAX then
      Some(now + EPH_BUCKET_SECONDS[retentionClass - CLASS_EPH_BASE])
    else None
  }

  // ---- the shape checks ----

  datatype StoreError =
    | ErrIdentifierShape | ErrSizeBucket | ErrRetentionClass | ErrTransientRecord
    | ErrEphWindowRange | ErrEphWindowClass | ErrInlineOrBlob
    | ErrEmptyBatch | ErrCommitBatch | ErrGroupUnavailable | ErrEpochKeyUnknown

  predicate EphWindowClassAllows(retentionClass: nat) {
    CLASS_EPH_BASE < retentionClass <= CLASS_EPH_MAX
  }

  function ValidateAttachment(record: Record): Option<StoreError> {
    match KindOf(record)
    case AttachmentWrap =>
      var tag := record.attachment.value.wrap;
      if tag.None? || |tag.value.targetHandle| != WRAP_TARGET_HANDLE_BYTES then Some(ErrIdentifierShape) else None
    case AttachmentRecovery =>
      var tag := record.attachment.value.recovery;
      if tag.None? || |tag.value.handle| != RECOVERY_HANDLE_BYTES || |tag.value.verifyPub| != VERIFY_PUB_BYTES
      then Some(ErrIdentifierShape) else None
    case AttachmentEpochComplete =>
      if record.attachment.value.epochComplete.None? then Some(ErrIdentifierShape) else None
    case AttachmentEpoch =>
      if record.attachment.value.epoch.None? then Some(ErrIdentifierShape) else None
    case _ => None
  }

  function ValidateRecord(record: Record): Option<StoreError> {
    if |record.sender| != SENDER_HANDLE_BYTES then Some(ErrIdentifierShape)
    else if |record.bodyHash| != BODY_HASH_BYTES then Some(ErrIdentifierShape)
    else if |record.ctHead| == 0 then Some(ErrIdentifierShape)
    else if record.sizeBucket > 5 then Some(ErrSizeBucket)
    else if !(record.retentionClass <= CLASS_MEDIA || CLASS_EPH_BASE <= record.retentionClass <= CLASS_EPH_MAX)
    then Some(ErrRetentionClass)
    else if record.retentionClass == CLASS_EPH_BASE then Some(ErrTransientRecord)
    else if EPH_WINDOW_MAX < record.ephWindow then Some(ErrEphWindowRange)
    else if record.ephWindow != 0 && !EphWindowClassAllows(record.retentionClass) then Some(ErrEphWindowClass)
    else if record.ctBody.Some? && record.blobId.Some? then Some(ErrInlineOrBlob)
    else if record.blobId.Some? && |record.blobId.value| != BLOB_ID_BYTES then Some(ErrIdentifierShape)
    else ValidateAttachment(record)
  }
}
