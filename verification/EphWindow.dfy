/**
 The ephemeral window: the number a sender puts in a record from its own clock, and the server's
 check of it against the window of its own. Times are milliseconds; windows are 64-bit.
 */
module EphWindow {
  import opened Common
  import opened Records

  const TWO_64: int := 0x1_0000_0000_0000_0000
  const TWO_63: int := 0x8000_0000_0000_0000

  /** Positive for the five windowed rungs, zero for the transient one, negative off the ladder. */
  function BucketSeconds(bucket: nat): int {
    if bucket < |EPH_BUCKET_SECONDS| then EPH_BUCKET_SECONDS[bucket] else -1
  }

  function BucketMillis(bucket: nat): int {
    BucketSeconds(bucket) * 1000
  }

  predicate Windowed(ephemeral: bool, bucket: nat) {
    ephemeral && 0 < BucketSeconds(bucket)
  }

  function Apart(a: int, b: int): int {
    if a < b then b - a else a - b
  }

  datatype SenderWindow = OffLadder | BeforeOrigin | Window(value: nat)

  /** The window a sender computes for a reading of its clock. */
  function WindowAt(bucket: nat, sentAt: Time): SenderWindow {
    if BucketSeconds(bucket) < 0 then OffLadder
    else if BucketSeconds(bucket) == 0 then Window(0)
    else if sentAt < 0 then BeforeOrigin
    else Window(sentAt / BucketMillis(bucket))
  }

  /** What the check comes to, over the true distance between the two windows. */
  function WindowReason(ephemeral: bool, bucket: nat, window: nat, now: Time): Reason {
    if !Windowed(ephemeral, bucket) then if window != 0 then ReasonRejected else ReasonOk
    else if now < 0 then ReasonInternal
    else if Apart(now / BucketMillis(bucket), window) <= 1 then ReasonOk
    else ReasonRejected
  }

  /** The subtraction a 64-bit machine makes. */
  function Minus64(a: int, b: int): int {
    (a - b) % TWO_64
  }

  /** Computed in 64 bits, for every window a client can send: no wrap-around ever reaches the comparison. */
  method CheckWindow(ephemeral: bool, bucket: nat, window: nat, now: Time) returns (reason: Reason)
    requires window < TWO_64 && -TWO_63 <= now < TWO_63
    ensures reason == WindowReason(ephemeral, bucket, window, now)
  {
    var seconds := BucketSeconds(bucket);
    if !ephemeral || seconds <= 0 {
      if window != 0 {
        return ReasonRejected;
      }
      return ReasonOk;
    }
    if now < 0 {
      return ReasonInternal;
    }
    var arrival := now / (seconds * 1000);
    DivisionShrinks(now, seconds * 1000);
    var distance := Minus64(arrival, window);
    if arrival < window {
      distance := Minus64(window, arrival);
    }
    if 1 < distance {
      return ReasonRejected;
    }
    return ReasonOk;
  }

  lemma Division(a: int, length: int)
    requires 0 <= a && 0 < length
    ensures 0 <= a / length && a / length * length <= a < a / length * length + length
  {
  }

  lemma DivisionShrinks(a: int, length: int)
    requires 0 <= a && 0 < length
    ensures 0 <= a / length <= a
  {
    Division(a, length);
    Grows(a / length, length);
  }

  lemma Grows(q: int, length: int)
    requires 0 <= q && 1 <= length
    ensures q <= q * length
  {
    ScaleUp(1, length, q);
  }

  /** Past a whole window between them, the later reading is more than a length after the earlier. */
  lemma WindowsApart(x: int, a: int, y: int, b: int, length: int)
    requires 0 < length && a < x * length + length && y * length <= b && x + 2 <= y
    ensures length < b - a
  {
    ScaleUp(x + 2, y, length);
    NextMultiple(x, length);
    NextMultiple(x + 1, length);
  }

  /** Readings at most one length apart fall in the same window or in neighbours. */
  lemma NearReadingsNearWindows(a: int, b: int, length: int)
    requires 0 <= a && 0 <= b && 0 < length && Apart(a, b) <= length
    ensures Apart(a / length, b / length) <= 1
  {
    Division(a, length);
    Division(b, length);
    var x, y := a / length, b / length;
    if x + 2 <= y { WindowsApart(x, a, y, b, length); } else if y + 2 <= x { WindowsApart(y, b, x, a, length); }
  }

  /** Where one window is at most the next after another, so are the readings. */
  lemma WindowsClose(x: int, a: int, y: int, b: int, length: int)
    requires 0 < length && x * length <= a && b < y * length + length && y <= x + 1
    ensures b - a < 2 * length
  {
    ScaleUp(y, x + 1, length);
    NextMultiple(x, length);
  }

  /** Readings in the same window or in neighbours are less than two lengths apart. */
  lemma NearWindowsNearReadings(a: int, b: int, length: int)
    requires 0 <= a && 0 <= b && 0 < length && Apart(a / length, b / length) <= 1
    ensures Apart(a, b) < 2 * length
  {
    Division(a, length);
    Division(b, length);
    WindowsClose(a / length, a, b / length, b, length);
    WindowsClose(b / length, b, a / length, a, length);
  }

  /**
   For every windowed bucket: a sender whose clock is within one bucket length of the server's is
   accepted, and an accepted one's clock is less than two bucket lengths away.
   */
  lemma SenderAndServerAgree(bucket: nat, sentAt: Time, now: Time)
    requires Windowed(true, bucket) && 0 <= sentAt && 0 <= now
    ensures WindowAt(bucket, sentAt).Window?
    ensures Apart(sentAt, now) <= BucketMillis(bucket) ==>
              WindowReason(true, bucket, WindowAt(bucket, sentAt).value, now) == ReasonOk
    ensures WindowReason(true, bucket, WindowAt(bucket, sentAt).value, now) == ReasonOk ==>
              Apart(sentAt, now) < 2 * BucketMillis(bucket)
  {
    if Apart(sentAt, now) <= BucketMillis(bucket) { NearReadingsNearWindows(sentAt, now, BucketMillis(bucket)); }
    if Apart(now / BucketMillis(bucket), sentAt / BucketMillis(bucket)) <= 1 {
      NearWindowsNearReadings(sentAt, now, BucketMillis(bucket));
    }
  }

  /** Neither bound can be improved: one tick past the first may be refused, one short of the second accepted. */
  lemma BothBoundsAreTight(bucket: nat)
    requires Windowed(true, bucket)
    ensures var length := BucketMillis(bucket);
            && WindowReason(true, bucket, WindowAt(bucket, length - 1).value, 2 * length) == ReasonRejected
            && Apart(length - 1, 2 * length) == length + 1
            && WindowReason(true, bucket, WindowAt(bucket, 0).value, 2 * length - 1) == ReasonOk
            && Apart(0, 2 * length - 1) == 2 * length - 1
  {
    var length := BucketMillis(bucket);
    Quotient(length - 1, length, 0);
    Quotient(2 * length, length, 2);
    Quotient(0, length, 0);
    Quotient(2 * length - 1, length, 1);
  }

  lemma Quotient(a: int, length: int, q: int)
    requires 0 <= a && 0 < length && q * length <= a < q * length + length
    ensures a / length == q
  {
    Division(a, length);
    if a / length < q { ScaleUp(a / length + 1, q, length); NextMultiple(a / length, length); }
    if q < a / length { ScaleUp(q + 1, a / length, length); NextMultiple(q, length); }
  }

  /** A sender on the transient rung puts zero, off the ladder nothing, and on a windowed rung the window its clock is in. */
  lemma SenderPuts(bucket: nat, sentAt: Time)
    ensures WindowAt(bucket, sentAt) == OffLadder <==> 6 <= bucket
    ensures bucket == 0 ==> WindowAt(bucket, sentAt) == Window(0)
    ensures 1 <= bucket < 6 && sentAt < 0 ==> WindowAt(bucket, sentAt) == BeforeOrigin
    ensures 1 <= bucket < 6 && 0 <= sentAt ==>
              && WindowAt(bucket, sentAt).Window?
              && WindowAt(bucket, sentAt).value * BucketMillis(bucket) <= sentAt < (WindowAt(bucket, sentAt).value + 1) * BucketMillis(bucket)
  {
    if 1 <= bucket < 6 && 0 <= sentAt {
      Division(sentAt, BucketMillis(bucket));
      NextMultiple(WindowAt(bucket, sentAt).value, BucketMillis(bucket));
    }
  }

  /** A sender's transient window is the one value the check admits off the windowed rungs. */
  lemma UnwindowedMustBeZero(ephemeral: bool, bucket: nat, window: nat, sentAt: Time, now: Time)
    requires !Windowed(ephemeral, bucket)
    ensures WindowReason(ephemeral, bucket, window, now) == ReasonOk <==> window == 0
    ensures ephemeral && WindowAt(bucket, sentAt).Window? ==>
              WindowReason(ephemeral, bucket, WindowAt(bucket, sentAt).value, now) == ReasonOk
  {
  }
}
