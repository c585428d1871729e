/**
  The state of one Twilio media stream as seen by the input handler, and the
  effect of one message (`Transition`, one turn of the `_listen` loop) and of
  a sequence of messages (`Run`, the loop up to its first `break`).
 */
module TwilioSession {

  import opened Wrappers
  import opened SilenceGap
  import opened TwilioMessages

  /**
    The handler's fields. `markSet` is `None` when no mark set was passed to
    the constructor; `queue` is what this handler has put on the transcriber
    queue so far.
   */
  datatype Session = Session(
    callSid: Option<string>,
    streamSid: Option<string>,
    lastMediaReceived: int,
    markSet: Option<set<string>>,
    queue: seq<WorkUnit>)

  /** The state right after construction. */
  function Initial(markSet: Option<set<string>>): (s: Session)
  {
    Session(None, None, 0, markSet, [])
  }

  /** The metadata of every audio packet forwarded in state `s`. */
  function MediaMeta(s: Session, sequence: int): (meta: MetaInfo)
  {
    AudioMeta("twilio", s.callSid, s.streamSid, sequence)
  }

  /** The mark set only loses names, and is absent before exactly when after. */
  predicate MarksShrink(before: Option<set<string>>, after: Option<set<string>>)
  {
    before.None? == after.None? && (before.Some? ==> after.value <= before.value)
  }

  /**
    The messages that end the loop: `stop`, any message whose handling
    raises, an inbound frame when `input_types` has no `'audio'` entry, and a
    mark when there is no mark set to look the name up in.
   */
  predicate Terminal(audio: Option<int>, hasMarkSet: bool, e: Event)
  {
    match e
    case Stop => true
    case Malformed => true
    case Media(track, _, _) => track == InboundTrack && audio.None?
    case Mark(_) => !hasMarkSet
    case _ => false
  }

  datatype StepResult = StepResult(next: Session, stop: bool)

  /**
    One turn of the loop on message `e`. `audio` is `input_types['audio']`,
    when present.
   */
  function Transition(audio: Option<int>, s: Session, e: Event): (r: StepResult)
    ensures r.stop <==> Terminal(audio, s.markSet.Some?, e)
    ensures r.stop ==> r.next == s.(queue := s.queue + [Sentinel])
    ensures s.queue <= r.next.queue && |r.next.queue| <= |s.queue| + 2
    ensures !r.stop ==> forall k :: |s.queue| <= k < |r.next.queue| ==> r.next.queue[k].data.Some?
    ensures MarksShrink(s.markSet, r.next.markSet)
    ensures !e.Start? ==> r.next.callSid == s.callSid && r.next.streamSid == s.streamSid
  {
    match e
    case Start(callSid, streamSid) =>
      StepResult(s.(callSid := Some(callSid), streamSid := Some(streamSid)), false)
    case Media(track, ts, payload) =>
      if track != InboundTrack then StepResult(s, false)
      else if audio.None? then StepResult(s.(queue := s.queue + [Sentinel]), true)
      else
        var meta := MediaMeta(s, audio.value);
        var fill := if HasGap(s.lastMediaReceived, ts)
                    then [WorkUnit(Some(Silence(SilenceBytes(s.lastMediaReceived, ts))), meta)]
                    else [];
        StepResult(s.(lastMediaReceived := ts, queue := s.queue + fill + [WorkUnit(Some(payload), meta)]), false)
    case Mark(name) =>
      if s.markSet.None? then StepResult(s.(queue := s.queue + [Sentinel]), true)
      else if name in s.markSet.value then StepResult(s.(markSet := Some(s.markSet.value - {name})), false)
      else StepResult(s, false)
    case Stop =>
      StepResult(s.(queue := s.queue + [Sentinel]), true)
    case OtherKind(_) =>
      StepResult(s, false)
    case Malformed =>
      StepResult(s.(queue := s.queue + [Sentinel]), true)
  }

  /** `ended` tells whether the loop has left `while True`. */
  datatype RunResult = RunResult(session: Session, ended: bool)

  /**
    The loop fed the messages `events` in order. It stops at the first
    terminal message; when the messages run out first, it is still waiting
    in `receive_text`.
   */
  function Run(audio: Option<int>, s: Session, events: seq<Event>): (r: RunResult)
    ensures s.queue <= r.session.queue
    ensures MarksShrink(s.markSet, r.session.markSet)
    decreases |events|
  {
    if events == [] then RunResult(s, false)
    else
      var t := Transition(audio, s, events[0]);
      if t.stop then RunResult(t.next, true) else Run(audio, t.next, events[1..])
  }
}
