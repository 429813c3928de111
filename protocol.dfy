/**
 * The messages on the two sockets of one call, as tagged variants decoded once at the
 * boundary (the relay itself reads them with json.loads and string comparisons).
 */
module Protocol {
  import opened Wrappers

  /** Events read from the telephony media socket (main.py:101-118). */
  datatype TwilioEvent =
    | Start(streamSid: string)
    | Media(timestamp: int, payload: string)
    | Mark
    | Stop
    | OtherTwilioEvent(kind: string)

  /**
   * Events read from the engine socket (main.py:128-158). An audio delta without a
   * `delta` field fails the test at main.py:133 and arrives here as OtherEngineEvent.
   */
  datatype EngineEvent =
    | AudioDelta(delta: string, itemId: Option<string>)
    | SpeechStarted
    | OtherEngineEvent(kind: string)

  /** Messages written to the telephony socket. */
  datatype TwilioMessage =
    | MediaFrame(streamSid: Option<string>, payload: string)   // main.py:135-141
    | MarkRequest(markedStream: string, name: string)           // main.py:194-198
    | ClearBuffer(streamSid: Option<string>)                   // main.py:183-186

  /** Messages written to the engine socket. */
  datatype EngineMessage =
    | AudioAppend(audio: string)                                        // main.py:105-108
    | ItemTruncate(itemId: string, contentIndex: int, audioEndMs: int)  // main.py:175-180

  /** The name every mark request carries and every queue entry holds (main.py:197, main.py:200). */
  const MarkName: string := "responsePart"

  /** Python truthiness of an optional string: present and non-empty. */
  predicate Truthy(o: Option<string>) {
    o.Some? && o.value != ""
  }

  /**
   * What the mark helper writes for a stream id: one mark request when the id is
   * truthy, nothing otherwise (main.py:193-199).
   */
  function MarkFor(sid: Option<string>): seq<TwilioMessage> {
    if Truthy(sid) then [MarkRequest(sid.value, MarkName)] else []
  }

  /** How many mark requests a stretch of the telephony log holds. */
  function MarkRequests(log: seq<TwilioMessage>): nat {
    if log == [] then 0
    else MarkRequests(log[..|log| - 1]) + (if log[|log| - 1].MarkRequest? then 1 else 0)
  }

  /** The payloads of the media frames of a stretch of the telephony log, in order. */
  function MediaPayloads(log: seq<TwilioMessage>): seq<string> {
    if log == [] then []
    else MediaPayloads(log[..|log| - 1]) + (if log[|log| - 1].MediaFrame? then [log[|log| - 1].payload] else [])
  }

  lemma {:induction false} MarkRequestsAppend(log: seq<TwilioMessage>, more: seq<TwilioMessage>)
    ensures MarkRequests(log + more) == MarkRequests(log) + MarkRequests(more)
    decreases |more|
  {
    if more == [] {
      assert log + more == log;
    } else {
      var init := more[..|more| - 1];
      assert (log + more)[..|log + more| - 1] == log + init;
      MarkRequestsAppend(log, init);
    }
  }

  lemma {:induction false} MediaPayloadsAppend(log: seq<TwilioMessage>, more: seq<TwilioMessage>)
    ensures MediaPayloads(log + more) == MediaPayloads(log) + MediaPayloads(more)
    decreases |more|
  {
    if more == [] {
      assert log + more == log;
    } else {
      var init := more[..|more| - 1];
      assert (log + more)[..|log + more| - 1] == log + init;
      MediaPayloadsAppend(log, init);
    }
  }

  /** Counting over a log that grew twice: the counts of the two increments add up. */
  lemma LogGrows(log0: seq<TwilioMessage>, mid: seq<TwilioMessage>, log: seq<TwilioMessage>)
    requires |mid| >= |log0| && mid[..|log0|] == log0
    requires |log| >= |mid| && log[..|mid|] == mid
    ensures |log| >= |log0| && log[..|log0|] == log0
    ensures MediaPayloads(log[|log0|..]) == MediaPayloads(mid[|log0|..]) + MediaPayloads(log[|mid|..])
    ensures MarkRequests(log[|log0|..]) == MarkRequests(mid[|log0|..]) + MarkRequests(log[|mid|..])
  {
    assert log[|log0|..] == mid[|log0|..] + log[|mid|..];
    MediaPayloadsAppend(mid[|log0|..], log[|mid|..]);
    MarkRequestsAppend(mid[|log0|..], log[|mid|..]);
  }

  /** The log increment of one relayed delta: one media frame, then the mark for the stream. */
  lemma FrameAndMark(log0: seq<TwilioMessage>, log: seq<TwilioMessage>, sid: Option<string>, payload: string)
    requires log == log0 + [MediaFrame(sid, payload)] + MarkFor(sid)
    ensures |log| >= |log0| && log[..|log0|] == log0
    ensures MediaPayloads(log[|log0|..]) == [payload]
    ensures MarkRequests(log[|log0|..]) == if Truthy(sid) then 1 else 0
  {
    assert log[|log0|..] == [MediaFrame(sid, payload)] + MarkFor(sid);
    MediaPayloadsAppend([MediaFrame(sid, payload)], MarkFor(sid));
    MarkRequestsAppend([MediaFrame(sid, payload)], MarkFor(sid));
    assert [MediaFrame(sid, payload)][..0] == [];
    if Truthy(sid) {
      assert MarkFor(sid)[..0] == [];
    }
  }

  /** A log increment of at most one clear holds no media frame and no mark request. */
  lemma ClearOnly(log0: seq<TwilioMessage>, log: seq<TwilioMessage>, sid: Option<string>)
    requires log == log0 || log == log0 + [ClearBuffer(sid)]
    ensures |log| >= |log0| && log[..|log0|] == log0
    ensures MediaPayloads(log[|log0|..]) == [] && MarkRequests(log[|log0|..]) == 0
  {
    assert log[|log0|..] == [] || log[|log0|..] == [ClearBuffer(sid)];
    assert [ClearBuffer(sid)][..0] == [];
  }
}
