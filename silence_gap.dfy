/**
  The silence-gap rule of the Twilio input handler. Every inbound media frame
  carries 20 ms of 8 kHz mu-law audio (8 bytes per millisecond). When a frame
  is stamped later than the end of the previous one, the handler inserts that
  many milliseconds of mu-law silence (bytes 0xFF) before forwarding it.
 */
module SilenceGap {

  import opened TwilioMessages

  /** Milliseconds of audio assumed to be carried by one received frame. */
  const FrameMs: int := 20

  /** Bytes of audio per millisecond (8 kHz, one byte per sample). */
  const BytesPerMs: int := 8

  /** The mu-law code of silence. */
  const SilenceByte: byte := 0xFF

  /** A frame stamped `ts` starts strictly after the frame stamped `last` ended. */
  predicate HasGap(last: int, ts: int)
  {
    last + FrameMs < ts
  }

  /**
    The number of silence bytes to insert before a frame stamped `ts` when
    the previous frame was stamped `last`: the silence is positive exactly
    when there is a gap, and then it lasts precisely from the end of the
    previous frame up to `ts`.
   */
  function SilenceBytes(last: int, ts: int): (n: nat)
    ensures n > 0 <==> HasGap(last, ts)
    ensures n % BytesPerMs == 0
    ensures HasGap(last, ts) ==> last + FrameMs + n / BytesPerMs == ts
  {
    if HasGap(last, ts) then BytesPerMs * (ts - (last + FrameMs)) else 0
  }

  /** `n` bytes of silence. */
  function Silence(n: nat): (r: seq<byte>)
    ensures |r| == n
    ensures forall i :: 0 <= i < |r| ==> r[i] == SilenceByte
  {
    seq(n, _ => SilenceByte)
  }
}
