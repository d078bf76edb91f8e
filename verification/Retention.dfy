/** What the server's retention limits make of the policy a commit asks for. */
module Retention {
  import opened Common
  import opened Records

  function MediaAsked(limits: Limits, opening: EpochOpening): nat {
    if opening.mediaTtl == 0 then limits.mediaDefault else opening.mediaTtl
  }

  /** The finite time a group asked its text to be kept, or none for ever. */
  function DurableAsked(opening: EpochOpening): Option<nat> {
    if opening.durableTtl == DURABLE_INDEFINITE then None else Some(opening.durableTtl)
  }

  /** The stored policy is not the one asked for; a group that set nothing asked for nothing. */
  predicate Moved(limits: Limits, opening: EpochOpening) {
    var policy := Apply(limits, opening).policy;
    || policy.media != MediaAsked(limits, opening)
    || (opening.durableTtl != DURABLE_UNSET && policy.durable != DurableAsked(opening))
  }

  /**
   No stored policy passes a maximum the server advertises or keeps text for no time at all; one falls
   below the minimum exactly when the maximum is below it, or nothing was asked and the default is.
   */
  lemma PolicyIsWithinLimits(limits: Limits, opening: EpochOpening)
    ensures var policy := Apply(limits, opening).policy;
            && (limits.mediaMax != 0 ==> policy.media <= limits.mediaMax)
            && (limits.durableMax != 0 ==> policy.durable.Some? && policy.durable.value <= limits.durableMax)
            && (policy.durable.Some? ==> 0 < policy.durable.value)
            && (policy.media == 0 <==> opening.mediaTtl == 0 && limits.mediaDefault == 0)
            && (policy.durable.Some? && policy.durable.value < limits.durableMin <==>
                  || 0 < limits.durableMax < limits.durableMin
                  || (opening.durableTtl == DURABLE_UNSET && 0 < limits.durableDefault < limits.durableMin))
  {
  }

  /**
   A commit is told it was clamped exactly when its policy was moved, but on a server whose maximum is
   below its minimum a group that asked for that maximum is told so though it got what it asked for.
   */
  lemma ClampedMeansMoved(limits: Limits, opening: EpochOpening)
    ensures AcceptanceReason(Some(Apply(limits, opening))) == ReasonRetentionClamped <==>
              || Moved(limits, opening)
              || (opening.durableTtl != DURABLE_UNSET && opening.durableTtl != DURABLE_INDEFINITE
                  && opening.durableTtl == limits.durableMax < limits.durableMin)
  {
  }

  /** Asked for ten and given ten, by a server that allows at most ten and at least twenty: told it was clamped. */
  lemma ClampedThoughUnmoved()
    ensures var limits := Limits(0, 1, 10, 0, 20);
            var opening := EpochOpening(1, 0, 0, 10, None, 1, [], []);
            AcceptanceReason(Some(Apply(limits, opening))) == ReasonRetentionClamped && !Moved(limits, opening)
  {
  }

  // ---- the value ----

  function Apart(a: int, b: int): nat {
    if a < b then b - a else a - b
  }

  /** A time the server's limits for text allow; a maximum of zero is none. */
  predicate DurableAllowed(limits: Limits, value: nat) {
    limits.durableMin <= value && (limits.durableMax == 0 || value <= limits.durableMax)
  }

  predicate MediaAllowed(limits: Limits, value: nat) {
    limits.mediaMax == 0 || value <= limits.mediaMax
  }

  /**
   The policy stored is the allowed one nearest to what was asked: a finite time goes to the nearest
   within the limits, or to the maximum of limits that allow none; an indefinite one to the maximum, or
   stays; one not asked for is the default, cut to the maximum, the maximum where there is no default,
   and indefinite where there is neither.
   */
  lemma PolicyIsTheNearest(limits: Limits, opening: EpochOpening)
    ensures var policy, asked := Apply(limits, opening).policy, MediaAsked(limits, opening);
            MediaAllowed(limits, policy.media) && forall v: nat :: MediaAllowed(limits, v) ==> Apart(policy.media, asked) <= Apart(v, asked)
    ensures var policy, asked := Apply(limits, opening).policy, opening.durableTtl;
            asked != DURABLE_UNSET && asked != DURABLE_INDEFINITE ==>
              && policy.durable.Some?
              && (if 0 < limits.durableMax < limits.durableMin then policy.durable.value == limits.durableMax
                  else
                    && DurableAllowed(limits, policy.durable.value)
                    && forall v: nat :: DurableAllowed(limits, v) ==> Apart(policy.durable.value, asked) <= Apart(v, asked))
    ensures opening.durableTtl == DURABLE_INDEFINITE ==>
              Apply(limits, opening).policy.durable == if limits.durableMax == 0 then None else Some(limits.durableMax)
    ensures opening.durableTtl == DURABLE_UNSET ==>
              Apply(limits, opening).policy.durable ==
                if limits.durableDefault == 0 && limits.durableMax == 0 then None
                else if limits.durableDefault == 0 || 0 < limits.durableMax < limits.durableDefault then Some(limits.durableMax)
                else Some(limits.durableDefault)
  {
  }

  /** Each mark of the answer says why: media above its maximum, text below its minimum, above its maximum, or not asked for. */
  lemma MarksSayWhy(limits: Limits, opening: EpochOpening)
    ensures var applied, asked := Apply(limits, opening), opening.durableTtl;
            && (applied.mediaClampedDown <==> applied.policy.media < MediaAsked(limits, opening))
            && (applied.durableDefaulted <==> asked == DURABLE_UNSET)
            && (applied.durableFlooredUp <==> 0 < asked < limits.durableMin && asked != DURABLE_INDEFINITE)
            && (applied.durableClampedDown <==>
                  asked != DURABLE_UNSET && limits.durableMax != 0
                  && (asked == DURABLE_INDEFINITE || limits.durableMax < Max(asked, limits.durableMin)))
  {
  }

  // ---- when a row may be pruned ----

  const HOUR: int := 3600
  const DAY: int := 24 * HOUR

  /** How long a row of each class is kept; a row of the two classes never stored is not kept by any rule. */
  function Lifetime(retentionClass: nat, policy: Policy): Option<int> {
    match retentionClass
    case 0x01 => policy.durable
    case 0x02 => Some(policy.media)
    case 0x11 => Some(HOUR)
    case 0x12 => Some(8 * HOUR)
    case 0x13 => Some(DAY)
    case 0x14 => Some(7 * DAY)
    case 0x15 => Some(28 * DAY)
    case _ => None
  }

  /** A stored row's prune time is its class's lifetime from its own instant: none for a permanent one, or text kept for ever. */
  lemma PrunedByClassAndPolicy(now: Time, record: Record, policy: Policy)
    requires ValidateRecord(record).None?
    ensures var lifetime := Lifetime(record.retentionClass, policy);
            PruneAfter(now, record.retentionClass, policy) == if lifetime.Some? then Some(now + lifetime.value) else None
  {
    var c := record.retentionClass;
    assert c <= CLASS_MEDIA || CLASS_EPH_BASE < c <= CLASS_EPH_MAX;
    if CLASS_EPH_BASE < c { assert c == 0x11 || c == 0x12 || c == 0x13 || c == 0x14 || c == 0x15; }
  }

  /** So whatever a commit asks, media is never kept past the server's maximum, and text never less than its minimum where the limits agree. */
  lemma LimitsHoldOfEveryRow(limits: Limits, opening: EpochOpening, now: Time)
    ensures var media := PruneAfter(now, CLASS_MEDIA, Apply(limits, opening).policy);
            media.Some? && (limits.mediaMax != 0 ==> media.value <= now + limits.mediaMax)
    ensures var text := PruneAfter(now, CLASS_DURABLE, Apply(limits, opening).policy);
            && (limits.durableMax != 0 ==> text.Some? && text.value <= now + limits.durableMax)
            && ((limits.durableMax == 0 || limits.durableMin <= limits.durableMax) && (limits.durableDefault == 0 || limits.durableMin <= limits.durableDefault) ==>
                  (text.Some? ==> now + limits.durableMin <= text.value))
  {
  }
}
