/**
  Concrete sessions of the Twilio input handler, from construction on. The
  identifiers "CA1" and "MZ1" stand for any call and stream sid.
 */
module TwilioScenarios {

  import opened Wrappers
  import opened SilenceGap
  import opened TwilioMessages
  import opened TwilioSession
  import opened TwilioHandler

  /**
    Frames at 0 ms and 40 ms: the first starts before the initial mark of
    20 ms ends and is forwarded alone; the second follows a 20 ms gap and is
    preceded by 160 bytes of silence.
   */
  lemma GapBetweenTwoFrames(sequence: int, marks: Option<set<string>>, a: seq<byte>, b: seq<byte>)
    ensures var meta := AudioMeta("twilio", Some("CA1"), Some("MZ1"), sequence);
            Run(Some(sequence), Initial(marks),
                [Start("CA1", "MZ1"), Media("inbound", 0, a), Media("inbound", 40, b)])
            == RunResult(Session(Some("CA1"), Some("MZ1"), 40, marks,
                                 [WorkUnit(Some(a), meta), WorkUnit(Some(Silence(160)), meta), WorkUnit(Some(b), meta)]),
                         false)
  {
    var audio, meta := Some(sequence), AudioMeta("twilio", Some("CA1"), Some("MZ1"), sequence);
    var events := [Start("CA1", "MZ1"), Media("inbound", 0, a), Media("inbound", 40, b)];
    var s1 := Initial(marks).(callSid := Some("CA1"), streamSid := Some("MZ1"));
    var s2 := s1.(queue := [WorkUnit(Some(a), meta)]);
    assert SilenceBytes(0, 40) == 160;
    var s3 := s2.(lastMediaReceived := 40,
                  queue := s2.queue + [WorkUnit(Some(Silence(160)), meta), WorkUnit(Some(b), meta)]);
    assert events[1..] == [Media("inbound", 0, a), Media("inbound", 40, b)];
    assert events[1..][1..] == [Media("inbound", 40, b)];
    assert Run(audio, Initial(marks), events) == Run(audio, s1, events[1..]);
    assert [] + [] + [WorkUnit(Some(a), meta)] == s2.queue;
    assert Transition(audio, s1, events[1..][0]) == StepResult(s2, false);
    assert Run(audio, s2, events[1..][1..]) == Run(audio, s3, []);
  }

  /**
    The reference point is 0 before any frame, so a first frame stamped
    100 ms is preceded by 80 ms (640 bytes) of silence.
   */
  lemma LateFirstFrame(sequence: int, marks: Option<set<string>>, a: seq<byte>)
    ensures var meta := AudioMeta("twilio", None, None, sequence);
            Run(Some(sequence), Initial(marks), [Media("inbound", 100, a)]).session.queue
            == [WorkUnit(Some(Silence(640)), meta), WorkUnit(Some(a), meta)]
  {
  }

  /** A frame stamped earlier than the previous one moves `lastMediaReceived` back. */
  lemma TimestampMovesBack(sequence: int, marks: Option<set<string>>, a: seq<byte>, b: seq<byte>)
    ensures Run(Some(sequence), Initial(marks), [Media("inbound", 100, a), Media("inbound", 50, b)])
              .session.lastMediaReceived == 50
  {
    var audio := Some(sequence);
    var events := [Media("inbound", 100, a), Media("inbound", 50, b)];
    var s1 := Transition(audio, Initial(marks), events[0]).next;
    assert events[1..] == [Media("inbound", 50, b)];
    assert Run(audio, Initial(marks), events) == Run(audio, s1, events[1..]);
    assert Run(audio, s1, events[1..]) == Run(audio, Transition(audio, s1, events[1]).next, []);
  }

  /** An outbound frame after `start` forwards nothing and leaves the stamp at 0. */
  lemma OutboundFrameOnly(sequence: int, marks: Option<set<string>>, x: seq<byte>)
    ensures var r := Run(Some(sequence), Initial(marks), [Start("CA1", "MZ1"), Media("outbound", 20, x)]);
            r.session.queue == [] && r.session.lastMediaReceived == 0 && !r.ended
  {
    var audio := Some(sequence);
    var events := [Start("CA1", "MZ1"), Media("outbound", 20, x)];
    var s1 := Initial(marks).(callSid := Some("CA1"), streamSid := Some("MZ1"));
    assert events[1..] == [Media("outbound", 20, x)];
    assert Run(audio, Initial(marks), events) == Run(audio, s1, events[1..]);
    assert Run(audio, s1, events[1..]) == Run(audio, s1, []);
  }

  /**
    `start` then a malformed message, or `start` then `stop`: one sentinel,
    the loop ends, and whatever follows is never read.
   */
  lemma StartThenEnd(audio: Option<int>, marks: Option<set<string>>, e: Event, later: seq<Event>)
    requires e.Malformed? || e.Stop?
    ensures Run(audio, Initial(marks), [Start("CA1", "MZ1"), e] + later)
            == RunResult(Session(Some("CA1"), Some("MZ1"), 0, marks, [Sentinel]), true)
  {
  }

  /**
    The same session driven through the handler object: construct it, feed
    it the messages and read back the queue.
   */
  method HandlerGapBetweenTwoFrames(sequence: int, a: seq<byte>, b: seq<byte>) returns (queue: seq<WorkUnit>, ended: bool)
    ensures var meta := AudioMeta("twilio", Some("CA1"), Some("MZ1"), sequence);
            queue == [WorkUnit(Some(a), meta), WorkUnit(Some(Silence(160)), meta), WorkUnit(Some(b), meta)]
    ensures !ended
  {
    var handler := new TwilioInputHandler(Some({}), Some(sequence));
    ended := handler.Listen([Start("CA1", "MZ1"), Media("inbound", 0, a), Media("inbound", 40, b)]);
    GapBetweenTwoFrames(sequence, Some({}), a, b);
    queue := handler.transcriberQueue;
  }
}
