/**
 * The per-call state of the media-stream handler (main.py:76-202) and the handlers that
 * update it, one per event kind, with the two relay loops and their interleaving.
 *
 * Writes to a socket are appends to the logs toTwilio and toEngine; whether the engine
 * socket is open is the flag engineOpen. Each handler runs as one atomic step.
 */
module MediaStream {
  import opened Wrappers
  import opened Base64
  import opened Protocol

  // ---------------------------------------------------------------------------
  // Reference definitions for the inbound relay, one event and then a whole run.

  /** Only a start event names a stream (main.py:111). */
  function NextSid(sid: Option<string>, e: TwilioEvent): Option<string> {
    if e.Start? then Some(e.streamSid) else sid
  }

  /**
   * A start event resets the clock to 0 (main.py:114); a media event that arrives while
   * the engine is open takes its own timestamp, in whatever order it comes (main.py:104).
   */
  function NextTimestamp(ts: int, engineOpen: bool, e: TwilioEvent): int {
    match e
    case Start(_) => 0
    case Media(t, _) => if engineOpen then t else ts
    case _ => ts
  }

  /** The audio a media event forwards to the engine, unchanged (main.py:105-109). */
  function Forwarded(engineOpen: bool, e: TwilioEvent): seq<EngineMessage> {
    if e.Media? && engineOpen then [AudioAppend(e.payload)] else []
  }

  function SidAfter(events: seq<TwilioEvent>, sid: Option<string>): (r: Option<string>)
    ensures r != sid ==> r.Some? && exists i :: 0 <= i < |events| && events[i] == Start(r.value)
  {
    if events == [] then sid
    else NextSid(SidAfter(events[..|events| - 1], sid), events[|events| - 1])
  }

  /**
   * The clock after a run: it only ever takes a value an event of the run brought, 0 from
   * a start or a media timestamp while the engine is open.
   */
  function TimestampAfter(events: seq<TwilioEvent>, ts: int, engineOpen: bool): (r: int)
    ensures r != ts ==>
      exists i :: 0 <= i < |events| && ((events[i].Start? && r == 0) || (engineOpen && events[i].Media? && events[i].timestamp == r))
  {
    if events == [] then ts
    else NextTimestamp(TimestampAfter(events[..|events| - 1], ts, engineOpen), engineOpen, events[|events| - 1])
  }

  function ForwardedAll(events: seq<TwilioEvent>, engineOpen: bool): (r: seq<EngineMessage>)
    ensures engineOpen || r == []
  {
    if events == [] then []
    else ForwardedAll(events[..|events| - 1], engineOpen) + Forwarded(engineOpen, events[|events| - 1])
  }

  /** The number of mark acknowledgements in a run. */
  function Acks(events: seq<TwilioEvent>): nat {
    if events == [] then 0
    else Acks(events[..|events| - 1]) + (if events[|events| - 1].Mark? then 1 else 0)
  }

  function Min(a: int, b: int): int { if a < b then a else b }

  /** Each run function takes one more event the way the single-event definitions say. */
  lemma InboundStep(events: seq<TwilioEvent>, i: nat, sid: Option<string>, ts: int, engineOpen: bool, queue: seq<string>)
    requires i < |events|
    ensures SidAfter(events[..i + 1], sid) == NextSid(SidAfter(events[..i], sid), events[i])
    ensures TimestampAfter(events[..i + 1], ts, engineOpen) == NextTimestamp(TimestampAfter(events[..i], ts, engineOpen), engineOpen, events[i])
    ensures ForwardedAll(events[..i + 1], engineOpen) == ForwardedAll(events[..i], engineOpen) + Forwarded(engineOpen, events[i])
    ensures var rest := queue[Min(Acks(events[..i]), |queue|)..];
      queue[Min(Acks(events[..i + 1]), |queue|)..] == if events[i].Mark? && rest != [] then rest[1..] else rest
  {
    assert events[..i + 1][..i] == events[..i];
  }

  // ---------------------------------------------------------------------------
  // Reference definitions for the outbound relay.

  /**
   * An engine event the outbound relay survives: everything except an audio delta
   * whose payload does not decode, which raises and ends the relay (main.py:134, main.py:159).
   */
  predicate Relayable(e: EngineEvent) {
    !(e.AudioDelta? && Reencode(e.delta).None?)
  }

  /** The payload an engine event puts on the telephony socket. */
  function RelayedPayload(e: EngineEvent): seq<string> {
    if e.AudioDelta? && Reencode(e.delta).Some? then [Reencode(e.delta).value] else []
  }

  function RelayedPayloads(events: seq<EngineEvent>): seq<string> {
    if events == [] then []
    else RelayedPayloads(events[..|events| - 1]) + RelayedPayload(events[|events| - 1])
  }

  /** Every event of a run is one the outbound relay survives. */
  predicate AllRelayable(events: seq<EngineEvent>) {
    forall j :: 0 <= j < |events| ==> Relayable(events[j])
  }

  lemma OutboundStep(events: seq<EngineEvent>, i: nat)
    requires i < |events| && AllRelayable(events[..i]) && Relayable(events[i])
    ensures AllRelayable(events[..i + 1])
  {
    assert events[..i + 1][..i] == events[..i];
  }

  /**
   * What the outbound relay updates: the utterance id, the mark queue and the utterance
   * start (main.py:126, main.py:164, main.py:200), with what was written to each socket.
   */
  datatype Outbound = Outbound(item: Option<string>, queue: seq<string>, start: Option<int>,
                               twilio: seq<TwilioMessage>, engine: seq<EngineMessage>)

  /**
   * The invariant of the outbound state: the queue holds only mark names; a pending mark
   * means an utterance start is recorded; and an utterance id, when set, is non-empty
   * and comes with a recorded start.
   */
  ghost predicate Coherent(o: Outbound) {
    (forall i :: 0 <= i < |o.queue| ==> o.queue[i] == MarkName) &&
    (o.queue != [] ==> o.start.Some?) &&
    (o.item.Some? ==> Truthy(o.item) && o.start.Some?)
  }

  /**
   * Caller speech interrupts the assistant: the utterance id is truthy (main.py:156), a
   * mark is pending and an utterance start is recorded (main.py:166).
   */
  predicate Interrupts(o: Outbound) {
    Truthy(o.item) && o.queue != [] && o.start.Some?
  }

  /**
   * One engine event applied to the outbound state, with stream id sid and clock
   * clock (main.py:133-158, main.py:162-200). A delta that does not decode changes
   * nothing, because the exception ends the relay before anything is sent.
   */
  function NextOutbound(sid: Option<string>, clock: int, o: Outbound, e: EngineEvent): Outbound {
    match e
    case AudioDelta(delta, itemId) =>
      if Reencode(delta).None? then o
      else Outbound(if Truthy(itemId) then itemId else o.item,
                    o.queue + (if Truthy(sid) then [MarkName] else []),
                    if o.start.None? then Some(clock) else o.start,
                    o.twilio + [MediaFrame(sid, Reencode(delta).value)] + MarkFor(sid),
                    o.engine)
    case SpeechStarted =>
      if Interrupts(o) then
        Outbound(None, [], None, o.twilio + [ClearBuffer(sid)],
                 o.engine + [ItemTruncate(o.item.value, 0, clock - o.start.value)])
      else o
    case OtherEngineEvent(_) => o
  }

  /** A run of engine events applied one after the other. */
  function OutboundAfter(sid: Option<string>, clock: int, o: Outbound, events: seq<EngineEvent>): Outbound {
    if events == [] then o
    else NextOutbound(sid, clock, OutboundAfter(sid, clock, o, events[..|events| - 1]), events[|events| - 1])
  }

  /** Every engine event keeps the outbound state coherent. */
  lemma NextOutboundCoherent(sid: Option<string>, clock: int, o: Outbound, e: EngineEvent)
    requires Coherent(o)
    ensures Coherent(NextOutbound(sid, clock, o, e))
  {
  }

  /**
   * In a coherent state the start test of main.py:166 never decides: speech interrupts
   * exactly when an utterance id is set and a mark is pending.
   */
  lemma InterruptsWhenPending(o: Outbound)
    requires Coherent(o)
    ensures Interrupts(o) <==> o.item.Some? && o.queue != []
  {
  }

  /**
   * A truncate and a clear leave together: an engine event writes to the engine exactly
   * when it interrupts, and then writes exactly one clear of the current stream to the
   * telephony socket.
   */
  lemma InterruptionPair(sid: Option<string>, clock: int, o: Outbound, e: EngineEvent)
    ensures var n := NextOutbound(sid, clock, o, e);
      && |n.twilio| >= |o.twilio| && n.twilio[..|o.twilio|] == o.twilio
      && (n.engine != o.engine <==> e.SpeechStarted? && Interrupts(o))
      && (n.engine != o.engine <==> n.twilio[|o.twilio|..] == [ClearBuffer(sid)])
  {
    var n := NextOutbound(sid, clock, o, e);
    if e.AudioDelta? && Reencode(e.delta).Some? {
      assert n.twilio[|o.twilio|..] == [MediaFrame(sid, Reencode(e.delta).value)] + MarkFor(sid);
      assert n.twilio[|o.twilio|..][0].MediaFrame?;
    } else if e.SpeechStarted? && Interrupts(o) {
      assert n.twilio[|o.twilio|..] == [ClearBuffer(sid)];
    } else {
      assert n.twilio[|o.twilio|..] == [];
    }
  }

  /**
   * One engine event's accounting: the telephony log only grows; the media frames
   * added carry the re-encoded delta; a mark follows each when the stream id is
   * truthy; and the queue grows by at most the marks requested.
   */
  lemma NextOutboundAccounting(sid: Option<string>, clock: int, o: Outbound, e: EngineEvent)
    ensures var n := NextOutbound(sid, clock, o, e);
      && |n.twilio| >= |o.twilio| && n.twilio[..|o.twilio|] == o.twilio
      && MediaPayloads(n.twilio[|o.twilio|..]) == RelayedPayload(e)
      && MarkRequests(n.twilio[|o.twilio|..]) == (if Truthy(sid) then |RelayedPayload(e)| else 0)
      && |n.queue| <= |o.queue| + MarkRequests(n.twilio[|o.twilio|..])
  {
    var n := NextOutbound(sid, clock, o, e);
    if e.AudioDelta? && Reencode(e.delta).Some? {
      FrameAndMark(o.twilio, n.twilio, sid, Reencode(e.delta).value);
    } else {
      ClearOnly(o.twilio, n.twilio, sid);
    }
  }

  /**
   * A run's accounting: the media frames added carry, in order and one for one, the
   * re-encoded deltas, and a mark follows each when the stream id is truthy.
   */
  lemma {:induction false} OutboundAfterAccounting(sid: Option<string>, clock: int, o: Outbound, events: seq<EngineEvent>)
    ensures var n := OutboundAfter(sid, clock, o, events);
      && |n.twilio| >= |o.twilio| && n.twilio[..|o.twilio|] == o.twilio
      && MediaPayloads(n.twilio[|o.twilio|..]) == RelayedPayloads(events)
      && MarkRequests(n.twilio[|o.twilio|..]) == (if Truthy(sid) then |RelayedPayloads(events)| else 0)
    decreases |events|
  {
    if events == [] {
      assert o.twilio[|o.twilio|..] == [];
    } else {
      var init := events[..|events| - 1];
      var mid := OutboundAfter(sid, clock, o, init);
      OutboundAfterAccounting(sid, clock, o, init);
      NextOutboundAccounting(sid, clock, mid, events[|events| - 1]);
      LogGrows(o.twilio, mid.twilio, OutboundAfter(sid, clock, o, events).twilio);
    }
  }

  /** Every run of engine events keeps the outbound state coherent. */
  lemma {:induction false} OutboundAfterCoherent(sid: Option<string>, clock: int, o: Outbound, events: seq<EngineEvent>)
    requires Coherent(o)
    ensures Coherent(OutboundAfter(sid, clock, o, events))
    decreases |events|
  {
    if events != [] {
      var init := events[..|events| - 1];
      OutboundAfterCoherent(sid, clock, o, init);
      NextOutboundCoherent(sid, clock, OutboundAfter(sid, clock, o, init), events[|events| - 1]);
    }
  }

  /**
   * One step of the interleaving of the two relays run by asyncio.gather (main.py:202):
   * an inbound event, an engine event, the caller hanging up, or the engine socket
   * closing from its own side.
   */
  datatype RelayStep =
    | FromTwilio(twilioEvent: TwilioEvent)
    | FromEngine(engineEvent: EngineEvent)
    | TwilioDisconnected
    | EngineClosed

  // ---------------------------------------------------------------------------

  /** The connection-specific variables of main.py:91-95, shared by both relays. */
  class Session {
    var streamSid: Option<string>
    var latestMediaTimestamp: int
    var lastAssistantItem: Option<string>
    var markQueue: seq<string>
    var responseStartTimestamp: Option<int>
    /** Whether the engine socket is open (`openai_ws.open`). */
    var engineOpen: bool
    /** Everything written to the telephony socket, oldest first. */
    var toTwilio: seq<TwilioMessage>
    /** Everything written to the engine socket after session setup, oldest first. */
    var toEngine: seq<EngineMessage>

    /** The fields the outbound relay updates, with the two logs, as one value. */
    function OutboundView(): Outbound
      reads this
    {
      Outbound(lastAssistantItem, markQueue, responseStartTimestamp, toTwilio, toEngine)
    }

    /** What every reachable state satisfies: its outbound part is coherent. */
    ghost predicate Valid()
      reads this
    {
      Coherent(OutboundView())
    }

    /** The state right after the engine session is set up (main.py:88-95). */
    constructor ()
      ensures Valid()
      ensures streamSid == None && latestMediaTimestamp == 0 && lastAssistantItem == None
      ensures markQueue == [] && responseStartTimestamp == None
      ensures engineOpen && toTwilio == [] && toEngine == []
    {
      streamSid := None;
      latestMediaTimestamp := 0;
      lastAssistantItem := None;
      markQueue := [];
      responseStartTimestamp := None;
      engineOpen := true;
      toTwilio := [];
      toEngine := [];
    }

    // ----- inbound relay, main.py:97-122 -----

    /**
     * A start event names the stream and restarts its clock. The handler declares only
     * stream_sid and latest_media_timestamp nonlocal (main.py:99), so its resets of the
     * utterance start and the utterance id (main.py:113, main.py:115) bind locals: the
     * shared utterance fields and the mark queue keep their values.
     */
    method OnStart(sid: string)
      requires Valid()
      modifies this
      ensures Valid()
      ensures streamSid == Some(sid) && latestMediaTimestamp == 0
      ensures lastAssistantItem == old(lastAssistantItem)
      ensures responseStartTimestamp == old(responseStartTimestamp)
      ensures markQueue == old(markQueue)
      ensures engineOpen == old(engineOpen) && toTwilio == old(toTwilio) && toEngine == old(toEngine)
    {
      streamSid := Some(sid);
      latestMediaTimestamp := 0;
    }

    /**
     * A media event, while the engine is open, takes its timestamp as it is (no
     * ordering check) and forwards its payload unchanged. While the engine is closed the
     * event matches none of the branches and nothing happens.
     */
    method OnMedia(timestamp: int, payload: string)
      requires Valid()
      modifies this
      ensures Valid()
      ensures old(engineOpen) ==> latestMediaTimestamp == timestamp
      ensures old(engineOpen) ==> toEngine == old(toEngine) + [AudioAppend(payload)]
      ensures !old(engineOpen) ==> latestMediaTimestamp == old(latestMediaTimestamp) && toEngine == old(toEngine)
      ensures streamSid == old(streamSid) && lastAssistantItem == old(lastAssistantItem)
      ensures responseStartTimestamp == old(responseStartTimestamp) && markQueue == old(markQueue)
      ensures engineOpen == old(engineOpen) && toTwilio == old(toTwilio)
    {
      if engineOpen {
        latestMediaTimestamp := timestamp;
        toEngine := toEngine + [AudioAppend(payload)];
      }
    }

    /** A mark acknowledgement drops the oldest pending mark; on an empty queue it does nothing. */
    method OnMark()
      requires Valid()
      modifies this
      ensures Valid()
      ensures old(markQueue) != [] ==> markQueue == old(markQueue)[1..]
      ensures old(markQueue) == [] ==> markQueue == []
      ensures |markQueue| == if |old(markQueue)| == 0 then 0 else |old(markQueue)| - 1
      ensures streamSid == old(streamSid) && latestMediaTimestamp == old(latestMediaTimestamp)
      ensures lastAssistantItem == old(lastAssistantItem)
      ensures responseStartTimestamp == old(responseStartTimestamp)
      ensures engineOpen == old(engineOpen) && toTwilio == old(toTwilio) && toEngine == old(toEngine)
    {
      if markQueue != [] {
        markQueue := markQueue[1..];
      }
    }

    /** The telephony socket went away: close the engine socket if it is still open (main.py:119-122). */
    method OnDisconnect()
      requires Valid()
      modifies this
      ensures Valid()
      ensures !engineOpen
      ensures streamSid == old(streamSid) && latestMediaTimestamp == old(latestMediaTimestamp)
      ensures lastAssistantItem == old(lastAssistantItem)
      ensures responseStartTimestamp == old(responseStartTimestamp) && markQueue == old(markQueue)
      ensures toTwilio == old(toTwilio) && toEngine == old(toEngine)
    {
      if engineOpen {
        engineOpen := false;
      }
    }

    /** One iteration of the inbound loop: dispatch on the event kind (main.py:103-118). */
    method OnTwilioEvent(e: TwilioEvent)
      requires Valid()
      modifies this
      ensures Valid()
      ensures streamSid == NextSid(old(streamSid), e)
      ensures latestMediaTimestamp == NextTimestamp(old(latestMediaTimestamp), old(engineOpen), e)
      ensures markQueue == if e.Mark? && old(markQueue) != [] then old(markQueue)[1..] else old(markQueue)
      ensures toEngine == old(toEngine) + Forwarded(old(engineOpen), e)
      ensures lastAssistantItem == old(lastAssistantItem)
      ensures responseStartTimestamp == old(responseStartTimestamp)
      ensures engineOpen == old(engineOpen) && toTwilio == old(toTwilio)
    {
      match e
      case Media(ts, payload) =>
        OnMedia(ts, payload);
      case Start(sid) =>
        OnStart(sid);
      case Mark =>
        OnMark();
      case _ =>
    }

    /**
     * The inbound relay over a run of events (main.py:101), ended by a disconnect or not.
     * The stream id is that of the last start, the timestamp that of the last start or
     * media event, one pending mark goes per acknowledgement until the queue is empty,
     * and the engine receives every media payload in order while it is open.
     */
    method ReceiveFromTwilio(events: seq<TwilioEvent>, disconnected: bool)
      requires Valid()
      modifies this
      ensures Valid()
      ensures streamSid == SidAfter(events, old(streamSid))
      ensures latestMediaTimestamp == TimestampAfter(events, old(latestMediaTimestamp), old(engineOpen))
      ensures markQueue == old(markQueue)[Min(Acks(events), |old(markQueue)|)..]
      ensures toEngine == old(toEngine) + ForwardedAll(events, old(engineOpen))
      ensures lastAssistantItem == old(lastAssistantItem)
      ensures responseStartTimestamp == old(responseStartTimestamp)
      ensures toTwilio == old(toTwilio)
      ensures engineOpen == (old(engineOpen) && !disconnected)
    {
      ghost var sid0, ts0, queue0, sent0, open := streamSid, latestMediaTimestamp, markQueue, toEngine, engineOpen;
      for i := 0 to |events|
        invariant Valid()
        invariant streamSid == SidAfter(events[..i], sid0)
        invariant latestMediaTimestamp == TimestampAfter(events[..i], ts0, open)
        invariant markQueue == queue0[Min(Acks(events[..i]), |queue0|)..]
        invariant toEngine == sent0 + ForwardedAll(events[..i], open)
        invariant lastAssistantItem == old(lastAssistantItem)
        invariant responseStartTimestamp == old(responseStartTimestamp)
        invariant toTwilio == old(toTwilio) && engineOpen == open
      {
        InboundStep(events, i, sid0, ts0, open, queue0);
        OnTwilioEvent(events[i]);
      }
      assert events[..|events|] == events;
      if disconnected {
        OnDisconnect();
      }
    }

    // ----- outbound relay, main.py:124-200 -----

    /** send_mark (main.py:192-200): with a truthy stream id, request a mark and queue its name. */
    method SendMark(sid: Option<string>)
      modifies this
      ensures toTwilio == old(toTwilio) + MarkFor(sid)
      ensures markQueue == old(markQueue) + (if Truthy(sid) then [MarkName] else [])
      ensures streamSid == old(streamSid) && latestMediaTimestamp == old(latestMediaTimestamp)
      ensures lastAssistantItem == old(lastAssistantItem)
      ensures responseStartTimestamp == old(responseStartTimestamp)
      ensures engineOpen == old(engineOpen) && toEngine == old(toEngine)
    {
      if Truthy(sid) {
        toTwilio := toTwilio + [MarkRequest(sid.value, MarkName)];
        markQueue := markQueue + [MarkName];
      }
    }

    /**
     * An audio delta (main.py:133-152). A payload that does not decode raises before
     * anything is sent. Otherwise one media frame goes out, tagged with the current
     * stream id and carrying exactly the bytes received; the utterance start is recorded
     * only if none is; the utterance id is replaced only by a truthy one; and a mark
     * follows when the stream id is truthy.
     */
    method OnAudioDelta(delta: string, itemId: Option<string>) returns (ok: bool)
      requires Valid()
      modifies this
      ensures Valid()
      ensures ok == Reencode(delta).Some?
      ensures !ok ==> unchanged(this)
      ensures ok ==> Decode(Reencode(delta).value) == Decode(delta)
      ensures ok ==> toTwilio == old(toTwilio) + [MediaFrame(old(streamSid), Reencode(delta).value)] + MarkFor(old(streamSid))
      ensures ok ==> markQueue == old(markQueue) + (if Truthy(old(streamSid)) then [MarkName] else [])
      ensures ok ==> responseStartTimestamp ==
                     old(if responseStartTimestamp.None? then Some(latestMediaTimestamp) else responseStartTimestamp)
      ensures ok ==> lastAssistantItem == (if Truthy(itemId) then itemId else old(lastAssistantItem))
      ensures streamSid == old(streamSid) && latestMediaTimestamp == old(latestMediaTimestamp)
      ensures engineOpen == old(engineOpen) && toEngine == old(toEngine)
    {
      var payload := Reencode(delta);
      if payload.None? {
        return false;
      }
      ok := true;
      toTwilio := toTwilio + [MediaFrame(streamSid, payload.value)];
      if responseStartTimestamp.None? {
        responseStartTimestamp := Some(latestMediaTimestamp);
      }
      if Truthy(itemId) {
        lastAssistantItem := itemId;
      }
      SendMark(streamSid);
    }

    /**
     * handle_speech_started_event (main.py:162-190), with its own test of the utterance
     * id. With a mark pending and a start recorded it truncates the utterance (when one is
     * set) at the elapsed time, which may be negative, clears the caller's buffer and
     * resets the utterance; otherwise it does nothing.
     */
    method HandleSpeechStarted()
      modifies this
      ensures old(markQueue) == [] || old(responseStartTimestamp).None? ==> unchanged(this)
      ensures old(markQueue) != [] && old(responseStartTimestamp).Some? ==>
        && toEngine == old(toEngine) +
             (if Truthy(old(lastAssistantItem))
              then [ItemTruncate(old(lastAssistantItem).value, 0, old(latestMediaTimestamp) - old(responseStartTimestamp).value)]
              else [])
        && toTwilio == old(toTwilio) + [ClearBuffer(old(streamSid))]
        && markQueue == [] && lastAssistantItem == None && responseStartTimestamp == None
      ensures streamSid == old(streamSid) && latestMediaTimestamp == old(latestMediaTimestamp)
      ensures engineOpen == old(engineOpen)
    {
      if markQueue != [] && responseStartTimestamp.Some? {
        var elapsed := latestMediaTimestamp - responseStartTimestamp.value;
        if Truthy(lastAssistantItem) {
          toEngine := toEngine + [ItemTruncate(lastAssistantItem.value, 0, elapsed)];
        }
        toTwilio := toTwilio + [ClearBuffer(streamSid)];
        markQueue := [];
        lastAssistantItem := None;
        responseStartTimestamp := None;
      }
    }

    /**
     * A speech-started event (main.py:154-158) interrupts only when an utterance id is
     * set. Then a truncate of that utterance at latest - start, content index 0, goes to
     * the engine and a clear to the caller's stream, iff a mark is pending; the start
     * test of main.py:166 never decides, because a pending mark implies a recorded start.
     */
    method OnSpeechStarted()
      requires Valid()
      modifies this
      ensures Valid()
      ensures var fires := old(lastAssistantItem).Some? && old(markQueue) != [];
        && (fires <==> Truthy(old(lastAssistantItem)) && old(markQueue) != [] && old(responseStartTimestamp).Some?)
        && (!fires ==> unchanged(this))
        && (fires ==>
              && toEngine == old(toEngine) +
                   [ItemTruncate(old(lastAssistantItem).value, 0, old(latestMediaTimestamp) - old(responseStartTimestamp).value)]
              && toTwilio == old(toTwilio) + [ClearBuffer(old(streamSid))]
              && markQueue == [] && lastAssistantItem == None && responseStartTimestamp == None)
      ensures streamSid == old(streamSid) && latestMediaTimestamp == old(latestMediaTimestamp)
      ensures engineOpen == old(engineOpen)
    {
      if Truthy(lastAssistantItem) {
        HandleSpeechStarted();
      }
    }

    /**
     * One iteration of the outbound loop (main.py:133-158): the outbound state moves as
     * the reference definition says, and the relay survives unless a delta does not decode.
     */
    method OnEngineEvent(e: EngineEvent) returns (ok: bool)
      requires Valid()
      modifies this
      ensures Valid()
      ensures ok == Relayable(e)
      ensures OutboundView() == NextOutbound(old(streamSid), old(latestMediaTimestamp), old(OutboundView()), e)
      ensures streamSid == old(streamSid) && latestMediaTimestamp == old(latestMediaTimestamp)
      ensures engineOpen == old(engineOpen)
    {
      match e
      case AudioDelta(delta, itemId) =>
        ok := OnAudioDelta(delta, itemId);
      case SpeechStarted =>
        OnSpeechStarted();
        ok := true;
      case OtherEngineEvent(_) =>
        ok := true;
    }

    /**
     * The outbound relay over a run of engine events (main.py:128). On a closed engine
     * socket the run yields nothing. Otherwise it stops at the first delta that does not
     * decode, and the outbound state is that of the events before it applied in order:
     * the media frames carry the re-encoded deltas one for one, each followed by a mark
     * when the stream id is truthy. The stream id, the clock and the engine socket's
     * state are untouched.
     */
    method SendToTwilio(events: seq<EngineEvent>) returns (handled: nat)
      requires Valid()
      modifies this
      ensures Valid()
      ensures handled <= |events| && AllRelayable(events[..handled])
      ensures !old(engineOpen) ==> handled == 0
      ensures old(engineOpen) && handled < |events| ==> !Relayable(events[handled])
      ensures OutboundView() ==
        OutboundAfter(old(streamSid), old(latestMediaTimestamp), old(OutboundView()), events[..handled])
      ensures |toTwilio| >= |old(toTwilio)| && toTwilio[..|old(toTwilio)|] == old(toTwilio)
      ensures MediaPayloads(toTwilio[|old(toTwilio)|..]) == RelayedPayloads(events[..handled])
      ensures MarkRequests(toTwilio[|old(toTwilio)|..]) ==
        if Truthy(streamSid) then |RelayedPayloads(events[..handled])| else 0
      ensures streamSid == old(streamSid) && latestMediaTimestamp == old(latestMediaTimestamp)
      ensures engineOpen == old(engineOpen)
    {
      ghost var o0, sid, ts := OutboundView(), streamSid, latestMediaTimestamp;
      handled := 0;
      if engineOpen {
        while handled < |events|
          invariant handled <= |events|
          invariant Valid() && engineOpen
          invariant AllRelayable(events[..handled])
          invariant OutboundView() == OutboundAfter(sid, ts, o0, events[..handled])
          invariant streamSid == sid && latestMediaTimestamp == ts
        {
          var ok := OnEngineEvent(events[handled]);
          if !ok {
            break;
          }
          OutboundStep(events, handled);
          assert events[..handled + 1][..handled] == events[..handled];
          handled := handled + 1;
        }
      }
      OutboundAfterAccounting(sid, ts, o0, events[..handled]);
    }

    /**
     * The two relays run together (main.py:202), as one interleaving of atomic handler
     * steps. The inbound relay stops at the telephony disconnect, which closes the engine
     * socket; the outbound relay stops when the engine socket is closed, from either side,
     * or a delta does not decode. The pending marks never outnumber the marks requested on
     * top of those pending at the start, and the telephony log only grows.
     */
    method HandleMediaStream(schedule: seq<RelayStep>)
      requires Valid()
      modifies this
      ensures Valid()
      ensures |toTwilio| >= |old(toTwilio)| && toTwilio[..|old(toTwilio)|] == old(toTwilio)
      ensures |markQueue| <= |old(markQueue)| + MarkRequests(toTwilio[|old(toTwilio)|..])
      ensures TwilioDisconnected in schedule || EngineClosed in schedule ==> !engineOpen
    {
      ghost var log0, queue0 := toTwilio, markQueue;
      var inboundRunning, outboundRunning := true, true;
      for i := 0 to |schedule|
        invariant Valid()
        invariant |toTwilio| >= |log0| && toTwilio[..|log0|] == log0
        invariant |markQueue| <= |queue0| + MarkRequests(toTwilio[|log0|..])
        invariant !inboundRunning ==> !engineOpen
        invariant TwilioDisconnected in schedule[..i] ==> !inboundRunning
        invariant EngineClosed in schedule[..i] ==> !engineOpen
      {
        ghost var before, queue := toTwilio, markQueue;
        match schedule[i]
        case FromTwilio(e) =>
          if inboundRunning {
            OnTwilioEvent(e);
          }
        case FromEngine(e) =>
          if outboundRunning && engineOpen {
            ghost var o := OutboundView();
            NextOutboundAccounting(streamSid, latestMediaTimestamp, o, e);
            outboundRunning := OnEngineEvent(e);
            LogGrows(log0, before, toTwilio);
          }
        case TwilioDisconnected =>
          if inboundRunning {
            inboundRunning := false;
            OnDisconnect();
          }
        case EngineClosed =>
          engineOpen := false;
          outboundRunning := false;
        assert schedule[..i + 1] == schedule[..i] + [schedule[i]];
      }
      assert schedule[..|schedule|] == schedule;
    }
  }
}
