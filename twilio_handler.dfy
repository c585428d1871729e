/**
  `TwilioInputHandler`: the object that reads the media-stream websocket and
  feeds the transcriber queue. Its fields are updated in place by the
  message handlers; `State` views them as a `Session`, and every method is
  specified by the pure model in `TwilioSession`.
 */
module TwilioHandler {

  import opened Wrappers
  import opened SilenceGap
  import opened TwilioMessages
  import opened TwilioSession

  class TwilioInputHandler {
    var callSid: Option<string>
    var streamSid: Option<string>
    var lastMediaReceived: int
    var markSet: Option<set<string>>
    /** What this handler has put on `queues['transcriber']`. */
    var transcriberQueue: seq<WorkUnit>
    /** `input_types['audio']`, when `input_types` has that entry. */
    const audioSequence: Option<int>

    function State(): Session
      reads this
    {
      Session(callSid, streamSid, lastMediaReceived, markSet, transcriberQueue)
    }

    constructor (markSet: Option<set<string>>, audioSequence: Option<int>)
      ensures State() == Initial(markSet)
      ensures this.audioSequence == audioSequence
    {
      this.callSid := None;
      this.streamSid := None;
      this.lastMediaReceived := 0;
      this.markSet := markSet;
      this.transcriberQueue := [];
      this.audioSequence := audioSequence;
    }

    /** The `start` message: record the call and stream identifiers. */
    method CallStart(callSid: string, streamSid: string)
      modifies this
      ensures State() == old(State()).(callSid := Some(callSid), streamSid := Some(streamSid))
    {
      this.callSid := Some(callSid);
      this.streamSid := Some(streamSid);
    }

    /**
      The `mark` message: a pending name is removed from the mark set.
      `raised` reports the exception of testing membership in an absent set.
     */
    method ProcessMarkMessage(name: string) returns (raised: bool)
      modifies this
      ensures raised <==> old(markSet).None?
      ensures old(markSet).Some? && name in old(markSet).value ==>
                State() == old(State()).(markSet := Some(old(markSet).value - {name}))
      ensures old(markSet).None? || name !in old(markSet).value ==> State() == old(State())
    {
      raised := markSet.None?;
      if !raised && name in markSet.value {
        markSet := Some(markSet.value - {name});
      }
    }

    /** Put one audio packet on the transcriber queue. */
    method IngestAudio(audio: seq<byte>, meta: MetaInfo)
      modifies this
      ensures State() == old(State()).(queue := old(transcriberQueue) + [WorkUnit(Some(audio), meta)])
    {
      transcriberQueue := transcriberQueue + [WorkUnit(Some(audio), meta)];
    }

    /** Put the end-of-stream packet on the transcriber queue. */
    method EnqueueSentinel()
      modifies this
      ensures State() == old(State()).(queue := old(transcriberQueue) + [Sentinel])
    {
      transcriberQueue := transcriberQueue + [Sentinel];
    }

    /**
      One turn of the `_listen` loop, including its `except` branch; `stop`
      tells whether the loop breaks.
     */
    method Step(e: Event) returns (stop: bool)
      modifies this
      ensures StepResult(State(), stop) == Transition(audioSequence, old(State()), e)
    {
      stop := false;
      match e {
        case Start(c, st) =>
          CallStart(c, st);
        case Media(track, ts, payload) =>
          if track == InboundTrack {
            if audioSequence.None? {
              EnqueueSentinel();
              stop := true;
            } else {
              var meta := AudioMeta("twilio", callSid, streamSid, audioSequence.value);
              if HasGap(lastMediaReceived, ts) {
                IngestAudio(Silence(SilenceBytes(lastMediaReceived, ts)), meta);
              }
              lastMediaReceived := ts;
              IngestAudio(payload, meta);
            }
          }
        case Mark(name) =>
          var raised := ProcessMarkMessage(name);
          if raised {
            EnqueueSentinel();
            stop := true;
          }
        case Stop =>
          EnqueueSentinel();
          stop := true;
        case OtherKind(_) =>
        case Malformed =>
          EnqueueSentinel();
          stop := true;
      }
    }

    /**
      The `_listen` loop over the messages `events`. `ended` tells whether it
      left the loop; otherwise it is still waiting for the next message.
     */
    method Listen(events: seq<Event>) returns (ended: bool)
      modifies this
      ensures RunResult(State(), ended) == Run(audioSequence, old(State()), events)
    {
      ended := false;
      var i := 0;
      while i < |events|
        invariant 0 <= i <= |events|
        invariant Run(audioSequence, old(State()), events) == Run(audioSequence, State(), events[i..])
      {
        var stop := Step(events[i]);
        if stop {
          ended := true;
          return;
        }
        i := i + 1;
      }
    }
  }
}
