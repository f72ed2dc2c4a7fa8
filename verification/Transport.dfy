/**
  The integer rules behind the transport commands: which playlist entry
  "next" and "previous" pick, and where a seek lands.
 */
module Transport {
  import opened Base

  /** `next_track`'s choice: the following entry, the last one wrapping to the first. */
  function NextIndex(current: nat, len: nat): (r: nat)
    requires current < len
    ensures r < len
    ensures current + 1 < len ==> r == current + 1
    ensures current + 1 == len ==> r == 0
  {
    (current + 1) % len
  }

  /** `prev_track`'s choice: the preceding entry, the first one wrapping to the last. */
  function PrevIndex(current: nat, len: nat): (r: nat)
    requires current < len
    ensures r < len
    ensures current > 0 ==> r + 1 == current
    ensures current == 0 ==> r == len - 1
  {
    if current == 0 then len - 1 else current - 1
  }

  /** "Previous" undoes "next", and "next" undoes "previous". */
  lemma NextPrevInverse(i: nat, len: nat)
    requires i < len
    ensures PrevIndex(NextIndex(i, len), len) == i
    ensures NextIndex(PrevIndex(i, len), len) == i
  {
  }

  /** The entry reached from `i` by pressing "next" `k` times. */
  function NextTimes(i: nat, len: nat, k: nat): (r: nat)
    requires i < len
    ensures r < len
  {
    if k == 0 then i else NextIndex(NextTimes(i, len, k - 1), len)
  }

  /** Up to a full round, pressing "next" `k` times moves `k` places forward, wrapping once past the end. */
  lemma {:induction false} NextTimesIsRotation(i: nat, len: nat, k: nat)
    requires i < len && k <= len
    ensures NextTimes(i, len, k) == if i + k < len then i + k else i + k - len
  {
    if k > 0 {
      NextTimesIsRotation(i, len, k - 1);
    }
  }

  /** Repeated "next" reaches every entry of the playlist within a round, and is back after `len` presses. */
  lemma NextVisitsAll(i: nat, len: nat, j: nat)
    requires i < len && j < len
    ensures NextTimes(i, len, if j >= i then j - i else j + len - i) == j
    ensures NextTimes(i, len, len) == i
  {
    NextTimesIsRotation(i, len, if j >= i then j - i else j + len - i);
    NextTimesIsRotation(i, len, len);
  }

  /** The furthest a seek may go: the track's length, or `u64::MAX` when it is unknown. */
  function SeekBound(duration: Option<U64>): U64 {
    duration.GetOr(U64_MAX)
  }

  /** `seek`'s target: the requested position, held back to the end of the track. */
  function SeekClamp(position: U64, duration: Option<U64>): (r: U64)
    ensures r <= position && r <= SeekBound(duration)
    ensures r == position || r == SeekBound(duration)
    ensures duration.None? ==> r == position
  {
    Min(position, SeekBound(duration))
  }

  /**
    `seek_relative`'s target, as intended: the current position moved by
    `delta` seconds, kept between the start and the end of the track.
   */
  function SeekRelativePos(elapsed: U64, delta: I64, duration: Option<U64>): (r: U64)
    ensures r <= SeekBound(duration)
    ensures 0 <= elapsed + delta <= SeekBound(duration) ==> r == elapsed + delta
    ensures elapsed + delta < 0 ==> r == 0
    ensures elapsed + delta > SeekBound(duration) ==> r == SeekBound(duration)
  {
    Min(Max(elapsed + delta, 0), SeekBound(duration))
  }

  /**
    `seek_relative`'s target as the source computes it, with 64-bit
    conversions: the elapsed time and the bound are cast from `u64` to `i64`,
    the sum wraps, and the clamped result is cast back to `u64`.
   */
  function SeekRelativeAsWritten(elapsed: U64, delta: I64, duration: Option<U64>): (r: U64)
    ensures duration.Some? && duration.value <= I64_MAX ==> r <= duration.value
    ensures SeekBound(duration) > I64_MAX ==> r == SeekBound(duration)
  {
    var current := U64AsI64(elapsed);
    var maxPos := U64AsI64(SeekBound(duration));
    var newPos := Min(Max(WrapI64(current + delta), 0), maxPos);
    I64AsU64(newPos)
  }

  /**
    With the track length unknown, the bound `u64::MAX` becomes -1 once cast
    to `i64`, so every relative seek lands on `u64::MAX`, whatever the
    current position and step.
   */
  lemma SeekRelativeAsWrittenUnknownDuration(elapsed: U64, delta: I64)
    ensures SeekRelativeAsWritten(elapsed, delta, None) == U64_MAX
  {
  }

  /** Ten seconds in, five seconds forward, length unknown: the intended target is 15. */
  lemma SeekRelativeAsWrittenCounterexample()
    ensures SeekRelativeAsWritten(10, 5, None) == U64_MAX
    ensures SeekRelativePos(10, 5, None) == 15
  {
  }

  /**
    Wherever the 64-bit casts are exact (a known length and position that fit
    in `i64`, and a sum that does not overflow), the source computes the
    intended target.
   */
  lemma SeekRelativeAgreesWhenKnown(elapsed: U64, delta: I64, d: U64)
    requires elapsed <= I64_MAX && d <= I64_MAX
    requires I64_MIN <= elapsed + delta <= I64_MAX
    ensures SeekRelativeAsWritten(elapsed, delta, Some(d)) == SeekRelativePos(elapsed, delta, Some(d))
  {
  }
}
