/**
 * End-to-end runs of one call: a fresh session driven through a fixed interleaving of
 * handler steps, with what each socket received and the state left behind.
 */
module Scenarios {
  import opened Wrappers
  import opened Base64
  import opened Protocol
  import opened MediaStream

  /**
   * Barge-in: start, media at 0, a delta of utterance "x", media at 250, a second delta,
   * then speech. The utterance started at 0, two marks are pending, and the interruption
   * truncates "x" at 250 ms and clears the caller's buffer.
   */
  method BargeIn(sid: string, heard0: string, heard1: string, said0: string, said1: string)
    returns (twilio: seq<TwilioMessage>, engine: seq<EngineMessage>, startAtBargeIn: Option<int>,
             pendingAtBargeIn: nat, pending: seq<string>, item: Option<string>, start: Option<int>)
    requires sid != "" && Reencode(said0).Some? && Reencode(said1).Some?
    ensures startAtBargeIn == Some(0) && pendingAtBargeIn == 2
    ensures engine == [AudioAppend(heard0), AudioAppend(heard1), ItemTruncate("x", 0, 250)]
    ensures twilio == [MediaFrame(Some(sid), Reencode(said0).value), MarkRequest(sid, MarkName),
                       MediaFrame(Some(sid), Reencode(said1).value), MarkRequest(sid, MarkName),
                       ClearBuffer(Some(sid))]
    ensures pending == [] && item == None && start == None
  {
    var s := new Session();
    s.OnStart(sid);
    s.OnMedia(0, heard0);
    var ok := s.OnAudioDelta(said0, Some("x"));
    assert s.markQueue == [MarkName] && s.responseStartTimestamp == Some(0);
    s.OnMedia(250, heard1);
    ok := s.OnAudioDelta(said1, Some("x"));
    startAtBargeIn, pendingAtBargeIn := s.responseStartTimestamp, |s.markQueue|;
    s.OnSpeechStarted();
    twilio, engine := s.toTwilio, s.toEngine;
    pending, item, start := s.markQueue, s.lastAssistantItem, s.responseStartTimestamp;
  }

  /** Speech before any utterance is set: nothing is sent and nothing changes. */
  method SpeechWithoutUtterance(sid: string, heard: string)
    returns (twilio: seq<TwilioMessage>, engine: seq<EngineMessage>, pending: seq<string>, start: Option<int>)
    ensures twilio == [] && engine == [AudioAppend(heard)]
    ensures pending == [] && start == None
  {
    var s := new Session();
    s.OnStart(sid);
    s.OnMedia(40, heard);
    s.OnSpeechStarted();
    twilio, engine, pending, start := s.toTwilio, s.toEngine, s.markQueue, s.responseStartTimestamp;
  }

  /**
   * Audio that carries no item id sets no utterance, so speech does not interrupt it:
   * the mark stays pending and the start stays recorded.
   */
  method SpeechAfterAnonymousAudio(sid: string, said: string)
    returns (twilio: seq<TwilioMessage>, engine: seq<EngineMessage>, pending: seq<string>, start: Option<int>)
    requires sid != "" && Reencode(said).Some?
    ensures twilio == [MediaFrame(Some(sid), Reencode(said).value), MarkRequest(sid, MarkName)]
    ensures engine == [] && pending == [MarkName] && start == Some(0)
  {
    var s := new Session();
    s.OnStart(sid);
    var ok := s.OnAudioDelta(said, None);
    s.OnSpeechStarted();
    twilio, engine, pending, start := s.toTwilio, s.toEngine, s.markQueue, s.responseStartTimestamp;
  }

  /** An acknowledgement with no mark pending changes nothing and sends nothing. */
  method AckWithNothingPending(sid: string)
    returns (twilio: seq<TwilioMessage>, engine: seq<EngineMessage>, pending: seq<string>, stream: Option<string>)
    ensures twilio == [] && engine == [] && pending == [] && stream == Some(sid)
  {
    var s := new Session();
    s.OnStart(sid);
    s.OnMark();
    twilio, engine, pending, stream := s.toTwilio, s.toEngine, s.markQueue, s.streamSid;
  }

  /**
   * A restart of the stream resets the clock but not the utterance start, so a later
   * interruption truncates at a negative offset: start at 1000, restart, media at 200,
   * speech gives -800, and the clear goes to the new stream.
   */
  method RestartMidUtterance(first: string, second: string, said: string, heard: string)
    returns (twilio: seq<TwilioMessage>, engine: seq<EngineMessage>)
    requires first != "" && Reencode(said).Some?
    ensures engine == [AudioAppend(heard), AudioAppend(heard), ItemTruncate("x", 0, -800)]
    ensures twilio == [MediaFrame(Some(first), Reencode(said).value), MarkRequest(first, MarkName), ClearBuffer(Some(second))]
  {
    var s := new Session();
    s.OnStart(first);
    s.OnMedia(1000, heard);
    var ok := s.OnAudioDelta(said, Some("x"));
    s.OnStart(second);
    s.OnMedia(200, heard);
    s.OnSpeechStarted();
    twilio, engine := s.toTwilio, s.toEngine;
  }

  /**
   * The first half of NextUtteranceKeepsStart: utterance "x" starts at 0, its one mark is
   * acknowledged, and the caller's speech then finds no mark pending.
   */
  method PlayOut(s: Session, sid: string, said: string, heard: string)
    requires s.Valid() && s.engineOpen && s.markQueue == [] && s.responseStartTimestamp == None && s.toEngine == []
    requires sid != "" && Reencode(said).Some?
    modifies s
    ensures s.Valid() && s.engineOpen && s.streamSid == Some(sid)
    ensures s.responseStartTimestamp == Some(0) && s.markQueue == [] && s.lastAssistantItem == Some("x")
    ensures s.toEngine == [AudioAppend(heard)]
  {
    s.OnStart(sid);
    s.OnMedia(0, heard);
    var ok := s.OnAudioDelta(said, Some("x"));
    s.OnMark();
    s.OnSpeechStarted();
  }

  /**
   * An utterance played out in full (its mark acknowledged) is not interrupted, so its
   * start stays recorded; the next utterance keeps that start, and interrupting it at
   * 5200 truncates "y" at 5200 ms although it began playing at 5000.
   */
  method NextUtteranceKeepsStart(sid: string, said0: string, said1: string, heard: string)
    returns (engine: seq<EngineMessage>, pending: seq<string>)
    requires sid != "" && Reencode(said0).Some? && Reencode(said1).Some?
    ensures engine == [AudioAppend(heard), AudioAppend(heard), AudioAppend(heard), ItemTruncate("y", 0, 5200)]
    ensures pending == []
  {
    var s := new Session();
    PlayOut(s, sid, said0, heard);
    s.OnMedia(5000, heard);
    var ok := s.OnAudioDelta(said1, Some("y"));
    s.OnMedia(5200, heard);
    s.OnSpeechStarted();
    engine, pending := s.toEngine, s.markQueue;
  }

  /** After the caller hangs up the engine is closed, and later audio is not forwarded. */
  method MediaAfterDisconnect(heard: string)
    returns (engine: seq<EngineMessage>, clock: int, open: bool)
    ensures engine == [AudioAppend(heard)] && clock == 20 && !open
  {
    var s := new Session();
    var events := [Start("MZ"), Media(20, heard)];
    assert events[..1] == [Start("MZ")] && events[..1][..0] == [];
    assert ForwardedAll(events[..1], true) == [];
    assert ForwardedAll(events, true) == [] + [AudioAppend(heard)];
    assert TimestampAfter(events, 0, true) == 20;
    s.ReceiveFromTwilio(events, true);
    s.OnMedia(60, heard);
    engine, clock, open := s.toEngine, s.latestMediaTimestamp, s.engineOpen;
  }
}
