/**
  What the `_listen` loop of the Twilio input handler does, stated about the
  pure model in `TwilioSession`: the effect of each kind of message, the
  end-of-stream guarantee, the timestamp bookkeeping and the silence that a
  run of frames produces.
 */
module TwilioProperties {

  import opened Wrappers
  import opened SilenceGap
  import opened TwilioMessages
  import opened TwilioSession

  // ---------------------------------------------------------------------
  // One message at a time
  // ---------------------------------------------------------------------

  /**
    An inbound frame that starts after the previous one ended is preceded by
    exactly one silence packet of 8 bytes per missing millisecond; both
    packets carry the same metadata, and the frame's stamp is recorded.
   */
  lemma InboundFrameWithGap(sequence: int, s: Session, ts: int, payload: seq<byte>)
    requires s.lastMediaReceived + 20 < ts
    ensures var r := Transition(Some(sequence), s, Media("inbound", ts, payload));
            var meta := AudioMeta("twilio", s.callSid, s.streamSid, sequence);
            var n := SilenceBytes(s.lastMediaReceived, ts);
            && n == 8 * (ts - (s.lastMediaReceived + 20)) && n > 0
            && !r.stop
            && r.next == s.(lastMediaReceived := ts,
                            queue := s.queue + [WorkUnit(Some(Silence(n)), meta), WorkUnit(Some(payload), meta)])
  {
  }

  /** An inbound frame with no gap before it is forwarded alone. */
  lemma InboundFrameWithoutGap(sequence: int, s: Session, ts: int, payload: seq<byte>)
    requires ts <= s.lastMediaReceived + 20
    ensures var r := Transition(Some(sequence), s, Media("inbound", ts, payload));
            var meta := AudioMeta("twilio", s.callSid, s.streamSid, sequence);
            && SilenceBytes(s.lastMediaReceived, ts) == 0
            && !r.stop
            && r.next == s.(lastMediaReceived := ts, queue := s.queue + [WorkUnit(Some(payload), meta)])
  {
  }

  /**
    Without an `'audio'` entry in `input_types`, building the metadata of an
    inbound frame raises: the loop ends with the sentinel, before any
    silence and before the stamp is recorded.
   */
  lemma InboundFrameWithoutAudioLabel(s: Session, ts: int, payload: seq<byte>)
    ensures Transition(None, s, Media("inbound", ts, payload))
            == StepResult(s.(queue := s.queue + [Sentinel]), true)
  {
  }

  /** A well-formed frame of any other track changes nothing. */
  lemma OtherTrackIgnored(audio: Option<int>, s: Session, track: string, ts: int, payload: seq<byte>)
    requires track != "inbound"
    ensures Transition(audio, s, Media(track, ts, payload)) == StepResult(s, false)
  {
  }

  /** `start` records both identifiers and forwards nothing. */
  lemma StartRecordsIdentifiers(audio: Option<int>, s: Session, callSid: string, streamSid: string)
    ensures Transition(audio, s, Start(callSid, streamSid))
            == StepResult(s.(callSid := Some(callSid), streamSid := Some(streamSid)), false)
  {
  }

  /** A mark whose name is pending is removed from the set, and only it. */
  lemma PendingMarkRemoved(audio: Option<int>, s: Session, marks: set<string>, name: string)
    requires s.markSet == Some(marks) && name in marks
    ensures Transition(audio, s, Mark(name)) == StepResult(s.(markSet := Some(marks - {name})), false)
  {
  }

  /** A mark whose name is not pending changes nothing. */
  lemma UnknownMarkIgnored(audio: Option<int>, s: Session, marks: set<string>, name: string)
    requires s.markSet == Some(marks) && name !in marks
    ensures Transition(audio, s, Mark(name)) == StepResult(s, false)
  {
  }

  /** With no mark set, the membership test raises and the loop ends. */
  lemma MarkWithoutMarkSet(audio: Option<int>, s: Session, name: string)
    requires s.markSet.None?
    ensures Transition(audio, s, Mark(name)) == StepResult(s.(queue := s.queue + [Sentinel]), true)
  {
  }

  /** `stop` and every message whose handling raises append the sentinel and end the loop. */
  lemma StopOrErrorEndsStream(audio: Option<int>, s: Session, e: Event)
    requires e.Stop? || e.Malformed?
    ensures Transition(audio, s, e) == StepResult(s.(queue := s.queue + [Sentinel]), true)
  {
  }

  /** A message with an unrecognised `event` value is skipped. */
  lemma UnknownKindIgnored(audio: Option<int>, s: Session, kind: UnknownKind)
    ensures Transition(audio, s, OtherKind(kind)) == StepResult(s, false)
  {
  }

  // ---------------------------------------------------------------------
  // Runs of messages
  // ---------------------------------------------------------------------

  lemma SentinelFree(q: seq<WorkUnit>)
    requires forall k :: 0 <= k < |q| ==> q[k].data.Some?
    ensures SentinelCount(q) == 0
    decreases |q|
  {
    if q != [] {
      SentinelFree(q[..|q| - 1]);
    }
  }

  /**
    Whatever the messages, the loop puts at most one end-of-stream packet on
    the queue: exactly one if it ended, none if it is still waiting, and
    when there is one it is the last packet the handler produced.
   */
  lemma {:induction false} RunSentinels(audio: Option<int>, s: Session, events: seq<Event>)
    ensures var r := Run(audio, s, events);
            var out := r.session.queue[|s.queue|..];
            && SentinelCount(out) == (if r.ended then 1 else 0)
            && (r.ended ==> |out| > 0 && out[|out| - 1] == Sentinel)
    decreases |events|
  {
    var r := Run(audio, s, events);
    if events == [] {
      assert r.session.queue[|s.queue|..] == [];
    } else {
      var t := Transition(audio, s, events[0]);
      if t.stop {
        assert r.session.queue[|s.queue|..] == [Sentinel];
        assert SentinelCount([Sentinel]) == SentinelCount([]) + 1;
      } else {
        RunSentinels(audio, t.next, events[1..]);
        var mid := t.next.queue[|s.queue|..];
        var rest := r.session.queue[|t.next.queue|..];
        assert r.session.queue[|s.queue|..] == mid + rest;
        SentinelFree(mid);
        SentinelCountAppend(mid, rest);
      }
    }
  }

  /** The loop has ended exactly when one of the messages is terminal. */
  lemma {:induction false} RunEndsIffTerminal(audio: Option<int>, s: Session, events: seq<Event>)
    ensures Run(audio, s, events).ended
            <==> exists k :: 0 <= k < |events| && Terminal(audio, s.markSet.Some?, events[k])
    decreases |events|
  {
    if events != [] {
      var t := Transition(audio, s, events[0]);
      if !t.stop {
        RunEndsIffTerminal(audio, t.next, events[1..]);
        if exists k :: 0 <= k < |events| && Terminal(audio, s.markSet.Some?, events[k]) {
          var k :| 0 <= k < |events| && Terminal(audio, s.markSet.Some?, events[k]);
          assert events[1..][k - 1] == events[k];
        }
        if exists k :: 0 <= k < |events| - 1 && Terminal(audio, s.markSet.Some?, events[1..][k]) {
          var k :| 0 <= k < |events| - 1 && Terminal(audio, s.markSet.Some?, events[1..][k]);
          assert events[k + 1] == events[1..][k];
        }
      }
    }
  }

  /** Nothing after a terminal message has any effect. */
  lemma {:induction false} RunIgnoresAfterTerminal(audio: Option<int>, s: Session, events: seq<Event>, k: nat)
    requires k < |events| && Terminal(audio, s.markSet.Some?, events[k])
    ensures Run(audio, s, events) == Run(audio, s, events[..k + 1])
    decreases k
  {
    var t := Transition(audio, s, events[0]);
    assert events[..k + 1][0] == events[0];
    if !t.stop {
      assert events[..k + 1][1..] == events[1..][..k];
      RunIgnoresAfterTerminal(audio, t.next, events[1..], k - 1);
    }
  }

  /** A loop that is still running continues from where it stopped. */
  lemma {:induction false} RunAppend(audio: Option<int>, s: Session, a: seq<Event>, b: seq<Event>)
    requires !Run(audio, s, a).ended
    ensures Run(audio, s, a + b) == Run(audio, Run(audio, s, a).session, b)
    decreases |a|
  {
    if a == [] {
      assert a + b == b;
    } else {
      assert (a + b)[0] == a[0];
      assert (a + b)[1..] == a[1..] + b;
      RunAppend(audio, Transition(audio, s, a[0]).next, a[1..], b);
    }
  }

  /** The stamp of the last inbound frame among `events`, or `last` if there is none. */
  function LastInboundTimestamp(last: int, events: seq<Event>): (ts: int)
    decreases |events|
  {
    if events == [] then last
    else
      var e := events[|events| - 1];
      if e.Media? && e.track == InboundTrack then e.timestamp
      else LastInboundTimestamp(last, events[..|events| - 1])
  }

  /**
    While the loop runs, `lastMediaReceived` is the stamp of the most recent
    inbound frame, whatever the stamps before it (there is no ordering
    guard), and keeps its value until the first inbound frame.
   */
  lemma {:induction false} RunLastMedia(audio: Option<int>, s: Session, events: seq<Event>)
    requires forall k :: 0 <= k < |events| ==> !Terminal(audio, s.markSet.Some?, events[k])
    ensures Run(audio, s, events).session.lastMediaReceived
            == LastInboundTimestamp(s.lastMediaReceived, events)
    decreases |events|
  {
    if events != [] {
      var init, e := events[..|events| - 1], events[|events| - 1];
      assert events == init + [e];
      RunLastMedia(audio, s, init);
      RunEndsIffTerminal(audio, s, init);
      RunAppend(audio, s, init, [e]);
      assert !Terminal(audio, s.markSet.Some?, e);
    }
  }

  /** Every event is an inbound frame that starts no later than its predecessor ended. */
  predicate WithinCadence(last: int, events: seq<Event>)
    decreases |events|
  {
    events == [] ||
    (events[0].Media? && events[0].track == InboundTrack && events[0].timestamp <= last + FrameMs
     && WithinCadence(events[0].timestamp, events[1..]))
  }

  /** Every event is an inbound frame that starts after its predecessor ended. */
  predicate Gapped(last: int, events: seq<Event>)
    decreases |events|
  {
    events == [] ||
    (events[0].Media? && events[0].track == InboundTrack && last + FrameMs < events[0].timestamp
     && Gapped(events[0].timestamp, events[1..]))
  }

  /** The payload of each frame, in order, as work units. */
  function Frames(events: seq<Event>, meta: MetaInfo): (units: seq<WorkUnit>)
    decreases |events|
  {
    if events == [] then []
    else (if events[0].Media? then [WorkUnit(Some(events[0].payload), meta)] else [])
         + Frames(events[1..], meta)
  }

  /** Each frame preceded by the silence covering the time since the previous frame ended. */
  function GapFilled(last: int, events: seq<Event>, meta: MetaInfo): (units: seq<WorkUnit>)
    requires Gapped(last, events)
    decreases |events|
  {
    if events == [] then []
    else
      var ts := events[0].timestamp;
      [WorkUnit(Some(Silence(BytesPerMs * (ts - (last + FrameMs)))), meta), WorkUnit(Some(events[0].payload), meta)]
      + GapFilled(ts, events[1..], meta)
  }

  /** Frames that follow each other within the cadence are forwarded as they are, with no silence. */
  lemma {:induction false} RunWithinCadence(sequence: int, s: Session, events: seq<Event>)
    requires WithinCadence(s.lastMediaReceived, events)
    ensures Run(Some(sequence), s, events)
            == RunResult(s.(lastMediaReceived := LastInboundTimestamp(s.lastMediaReceived, events),
                            queue := s.queue + Frames(events, MediaMeta(s, sequence))), false)
    decreases |events|
  {
    if events != [] {
      var t := Transition(Some(sequence), s, events[0]);
      RunWithinCadence(sequence, t.next, events[1..]);
      assert MediaMeta(t.next, sequence) == MediaMeta(s, sequence);
      LastInboundFront(s.lastMediaReceived, events);
    }
  }

  /** Frames that each start after the previous one ended each get exactly one silence packet before them. */
  lemma {:induction false} RunGapped(sequence: int, s: Session, events: seq<Event>)
    requires Gapped(s.lastMediaReceived, events)
    ensures Run(Some(sequence), s, events)
            == RunResult(s.(lastMediaReceived := LastInboundTimestamp(s.lastMediaReceived, events),
                            queue := s.queue + GapFilled(s.lastMediaReceived, events, MediaMeta(s, sequence))), false)
    ensures |GapFilled(s.lastMediaReceived, events, MediaMeta(s, sequence))| == 2 * |events|
    decreases |events|
  {
    if events != [] {
      var t := Transition(Some(sequence), s, events[0]);
      RunGapped(sequence, t.next, events[1..]);
      assert MediaMeta(t.next, sequence) == MediaMeta(s, sequence);
      LastInboundFront(s.lastMediaReceived, events);
    }
  }

  /** Reading the last inbound stamp from the front: a leading inbound frame becomes the new default. */
  lemma {:induction false} LastInboundFront(last: int, events: seq<Event>)
    requires events != [] && events[0].Media? && events[0].track == InboundTrack
    ensures LastInboundTimestamp(last, events) == LastInboundTimestamp(events[0].timestamp, events[1..])
    decreases |events|
  {
    if |events| > 1 {
      var init := events[..|events| - 1];
      assert init[0] == events[0];
      assert init[1..] == events[1..][..|events[1..]| - 1];
      if !(events[|events| - 1].Media? && events[|events| - 1].track == InboundTrack) {
        LastInboundFront(last, init);
      }
    } else {
      assert events[1..] == [];
    }
  }
}
