/** The flush decision of the buffer closure (indexq.py:60, 113-129). */
module BufferPolicy {

  /** The effective capacity `osize`: `size*1000000` when that is positive, else 1.
      `sizeMb` is the queue's configured buffer size in megabytes. */
  function EffectiveCapacity(sizeMb: int): (osize: int)
    ensures osize >= 1
    ensures sizeMb > 0 ==> osize == sizeMb * 1000000
    ensures sizeMb <= 0 ==> osize == 1
  {
    var s := sizeMb * 1000000;
    if s > 0 then s else 1
  }

  /** `size / osize > threshold or (finalize is True and len(buf) >= 1)`: the ratio test
      is the buffer having passed `threshold` times its capacity. */
  function FlushDue(size: nat, osize: int, threshold: real, finalize: bool, bufLen: nat): (due: bool)
    requires osize >= 1
    ensures due <==> (size as real) > threshold * (osize as real) || (finalize && bufLen >= 1)
  {
    RatioAboveThreshold(size, osize, threshold);
    (size as real) / (osize as real) > threshold || (finalize && bufLen >= 1)
  }

  lemma RatioAboveThreshold(size: nat, osize: int, threshold: real)
    requires osize >= 1
    ensures (size as real) / (osize as real) > threshold <==> (size as real) > threshold * (osize as real)
  {
    var q := (size as real) / (osize as real);
    var o := osize as real;
    assert q * o == size as real;
    if q > threshold {
      assert (q - threshold) * o > 0.0;
    } else {
      assert (threshold - q) * o >= 0.0;
    }
  }

  /** Buffer-only law: without `finalize`, a buffer whose size has not passed
      `threshold * osize` is never written out. */
  lemma NoFlushBelowThreshold(size: nat, osize: int, threshold: real, bufLen: nat)
    requires osize >= 1
    requires (size as real) <= threshold * (osize as real)
    ensures !FlushDue(size, osize, threshold, false, bufLen)
  {
  }

  /** Past the threshold the buffer is written out whatever `finalize` says. */
  lemma FlushAboveThreshold(size: nat, osize: int, threshold: real, finalize: bool, bufLen: nat)
    requires osize >= 1
    requires (size as real) > threshold * (osize as real)
    ensures FlushDue(size, osize, threshold, finalize, bufLen)
  {
  }

  /** With no configured size (0, the default) and a threshold below 1, any buffered
      text at all triggers a write: every non-empty add flushes. */
  lemma UnsizedBufferFlushesEveryAdd(sizeMb: int, size: nat, threshold: real, finalize: bool, bufLen: nat)
    requires sizeMb <= 0 && threshold < 1.0 && size >= 1
    ensures FlushDue(size, EffectiveCapacity(sizeMb), threshold, finalize, bufLen)
  {
  }

  /** `finalize` on an empty buffer writes nothing, as long as the threshold is not
      negative; with a negative threshold even an empty buffer is written. */
  lemma FinalizeOnEmptyBuffer(osize: int, threshold: real)
    requires osize >= 1
    ensures !FlushDue(0, osize, threshold, true, 0) <==> threshold >= 0.0
  {
  }

  /** `finalize` on a non-empty buffer always writes it. */
  lemma FinalizeFlushesNonEmpty(size: nat, osize: int, threshold: real, bufLen: nat)
    requires osize >= 1 && bufLen >= 1
    ensures FlushDue(size, osize, threshold, true, bufLen)
  {
  }
}
