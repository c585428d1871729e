/**
  The messages the Twilio input handler reads from the media-stream websocket
  and the work units it puts on the transcriber queue.
 */
module TwilioMessages {

  import opened Wrappers

  /** One byte of audio payload. */
  newtype byte = b: int | 0 <= b < 256

  /** The values of a message's `event` field that the handler dispatches on. */
  const KnownKinds: set<string> := {"start", "media", "mark", "stop"}

  /** Any other value of the `event` field. */
  type UnknownKind = k: string | k !in KnownKinds witness ""

  /** The only media track that is forwarded. */
  const InboundTrack: string := "inbound"

  /**
    One websocket message, already parsed. `Malformed` stands for every
    message whose handling raises inside the loop's `try`: text that is not
    JSON, a missing key, a payload that is not base64, a timestamp that is
    not an integer, and a failing `receive_text` itself. Payload and
    timestamp are decoded before the track is looked at, so a media message
    that fails to decode is `Malformed` whatever its track.
   */
  datatype Event =
    | Start(callSid: string, streamSid: string)
    | Media(track: string, timestamp: int, payload: seq<byte>)
    | Mark(name: string)
    | Stop
    | OtherKind(kind: UnknownKind)
    | Malformed

  /** The `meta_info` dictionary attached to a work unit. */
  datatype MetaInfo =
    | AudioMeta(io: string, callSid: Option<string>, streamSid: Option<string>, sequence: int)
    | EosMeta(io: string, eos: bool)

  /** The packet built by `create_ws_data_packet(data, meta_info)`. */
  datatype WorkUnit = WorkUnit(data: Option<seq<byte>>, meta: MetaInfo)

  /** The end-of-stream packet that tells the transcriber to finish. */
  const Sentinel: WorkUnit := WorkUnit(None, EosMeta("default", true))

  /** The number of end-of-stream packets in a queue. */
  function SentinelCount(q: seq<WorkUnit>): (n: nat)
  {
    if q == [] then 0
    else SentinelCount(q[..|q| - 1]) + (if q[|q| - 1] == Sentinel then 1 else 0)
  }

  lemma {:induction false} SentinelCountAppend(q: seq<WorkUnit>, r: seq<WorkUnit>)
    ensures SentinelCount(q + r) == SentinelCount(q) + SentinelCount(r)
    decreases |r|
  {
    if r == [] {
      assert q + r == q;
    } else {
      assert (q + r)[..|q + r| - 1] == q + r[..|r| - 1];
      SentinelCountAppend(q, r[..|r| - 1]);
    }
  }
}
