/**
 * The streaming branch of the Worker (cloudflare-workers-openai-agent/src/index.ts):
 * the agent's stream events become server-sent-event frames `data: <json>\n\n`,
 * pushed one by one into a ReadableStream controller and closed by a
 * `data: [DONE]\n\n` frame. A reader that splits the stream back into
 * messages recovers exactly the payloads, in event order.
 */
module EventStream {
  import opened Wrappers
  import opened JsonText

  /** The text of `new Date().toISOString()`; opaque. */
  type Timestamp = string

  /** A run item as the SDK delivers it; `content` is `None` when the item has no such property. */
  datatype RunItem = RunItem(content: Option<Json>)

  /** The agent SDK's stream events, by their `type` field. */
  datatype AgentEvent =
    | RunItemEvent(item: RunItem)           // 'run_item_stream_event'
    | AgentUpdatedEvent(agentName: string)  // 'agent_updated_stream_event'
    | OtherEvent(kind: string)              // any other type, e.g. 'raw_model_stream_event'

  /** An event together with the clock reading taken while it is handled. */
  datatype Tick = Tick(event: AgentEvent, at: Timestamp)

  /** What one frame carries: `{type: 'text', ...}` or `{type: 'handoff', ...}`. */
  datatype Payload =
    | TextPayload(content: string, timestamp: Timestamp)
    | HandoffPayload(agent: string, timestamp: Timestamp)

  /** How the `for await` over the agent's events ends: all consumed, or an exception. */
  datatype StreamEnd = Exhausted | IterationFailed(reason: string)

  // ---------------------------------------------------------------------------
  // Events to payloads to frames

  /** A text payload only for a string `content`; a handoff payload for an agent update; nothing otherwise. */
  function PayloadOf(t: Tick): Option<Payload> {
    match t.event
    case RunItemEvent(item) =>
      if item.content.Some? && item.content.value.JString?
      then Some(TextPayload(item.content.value.s, t.at))
      else None
    case AgentUpdatedEvent(name) => Some(HandoffPayload(name, t.at))
    case OtherEvent(_) => None
  }

  function Payloads(ts: seq<Tick>): seq<Payload> {
    if ts == [] then []
    else TickPayloads(ts[0]) + Payloads(ts[1..])
  }

  const TextHead := "{\"type\":\"text\",\"content\":"
  const HandoffHead := "{\"type\":\"handoff\",\"agent\":"
  const TimestampKey := ",\"timestamp\":"

  /** `JSON.stringify` of a payload object, fields in the order the object literal lists them. */
  function Serialize(p: Payload): string {
    match p
    case TextPayload(c, at) => TextHead + Quote(c) + TimestampKey + Quote(at) + "}"
    case HandoffPayload(a, at) => HandoffHead + Quote(a) + TimestampKey + Quote(at) + "}"
  }

  function Frame(data: string): string {
    "data: " + data + "\n\n"
  }

  const DoneFrame := Frame("[DONE]")

  function FramesOf(ps: seq<Payload>): (r: seq<string>)
    ensures |r| == |ps|
  {
    if ps == [] then [] else [Frame(Serialize(ps[0]))] + FramesOf(ps[1..])
  }

  /** The frames enqueued for the events, before the closing frame. */
  function Frames(ts: seq<Tick>): seq<string> {
    FramesOf(Payloads(ts))
  }

  /** Everything the stream carries when the events run out normally. */
  function StreamChunks(ts: seq<Tick>): seq<string> {
    Frames(ts) + [DoneFrame]
  }

  function Concat(chunks: seq<string>): string {
    if chunks == [] then [] else chunks[0] + Concat(chunks[1..])
  }

  // ---------------------------------------------------------------------------
  // Framing properties

  /** The payload list of a single event. */
  function TickPayloads(t: Tick): seq<Payload> {
    match PayloadOf(t) case Some(p) => [p] case None => []
  }

  /** Payloads follow event order: the events of a concatenation give the concatenated payloads. */
  lemma {:induction false} PayloadsAppend(a: seq<Tick>, b: seq<Tick>)
    ensures Payloads(a + b) == Payloads(a) + Payloads(b)
  {
    if a != [] {
      assert (a + b)[0] == a[0];
      assert (a + b)[1..] == a[1..] + b;
      PayloadsAppend(a[1..], b);
      calc {
        Payloads(a + b);
        TickPayloads(a[0]) + Payloads(a[1..] + b);
        TickPayloads(a[0]) + (Payloads(a[1..]) + Payloads(b));
        (TickPayloads(a[0]) + Payloads(a[1..])) + Payloads(b);
      }
    } else {
      assert a + b == b;
    }
  }

  lemma {:induction false} FramesOfAppend(a: seq<Payload>, b: seq<Payload>)
    ensures FramesOf(a + b) == FramesOf(a) + FramesOf(b)
  {
    if a != [] {
      assert (a + b)[0] == a[0];
      assert (a + b)[1..] == a[1..] + b;
      FramesOfAppend(a[1..], b);
      calc {
        FramesOf(a + b);
        [Frame(Serialize(a[0]))] + FramesOf(a[1..] + b);
        [Frame(Serialize(a[0]))] + (FramesOf(a[1..]) + FramesOf(b));
        ([Frame(Serialize(a[0]))] + FramesOf(a[1..])) + FramesOf(b);
      }
    } else {
      assert a + b == b;
    }
  }

  /** Handling one more event appends that event's frame, if any, to the frames so far. */
  lemma FramesSnoc(ts: seq<Tick>, t: Tick)
    ensures Frames(ts + [t]) == Frames(ts) + FramesOf(TickPayloads(t))
  {
    PayloadsAppend(ts, [t]);
    assert Payloads([t]) == TickPayloads(t) by {
      assert [t][1..] == [];
    }
    FramesOfAppend(Payloads(ts), TickPayloads(t));
  }

  ghost predicate NoLineBreak(s: string) {
    forall k :: 0 <= k < |s| ==> s[k] != '\n' && s[k] != '\r'
  }

  lemma NoLineBreakAppend(a: string, b: string)
    requires NoLineBreak(a) && NoLineBreak(b)
    ensures NoLineBreak(a + b)
  {
    forall k | 0 <= k < |a + b| ensures (a + b)[k] != '\n' && (a + b)[k] != '\r' {
      if k < |a| { assert (a + b)[k] == a[k]; } else { assert (a + b)[k] == b[k - |a|]; }
    }
  }

  /** A payload's JSON text stays on one line. */
  lemma SerializeHasNoLineBreak(p: Payload)
    ensures NoLineBreak(Serialize(p))
  {
    var head, x, at := if p.TextPayload? then TextHead else HandoffHead,
                       if p.TextPayload? then p.content else p.agent, p.timestamp;
    assert Serialize(p) == head + Quote(x) + TimestampKey + Quote(at) + "}";
    QuoteHasNoLineBreak(x);
    QuoteHasNoLineBreak(at);
    assert NoLineBreak(head) && NoLineBreak(TimestampKey) && NoLineBreak("}");
    NoLineBreakAppend(head, Quote(x));
    NoLineBreakAppend(head + Quote(x), TimestampKey);
    NoLineBreakAppend(head + Quote(x) + TimestampKey, Quote(at));
    NoLineBreakAppend(head + Quote(x) + TimestampKey + Quote(at), "}");
  }

  /** Chunk `i` of the frames of `ps` followed by the `[DONE]` chunk is a one-line frame. */
  lemma ChunkIsFrame(ps: seq<Payload>, i: nat)
    requires i <= |ps|
    ensures |FramesOf(ps) + [DoneFrame]| == |ps| + 1
    ensures exists d :: (FramesOf(ps) + [DoneFrame])[i] == Frame(d) && NoLineBreak(d)
  {
    var cs := FramesOf(ps) + [DoneFrame];
    if i == |ps| {
      assert cs[i] == Frame("[DONE]") && NoLineBreak("[DONE]");
    } else {
      FramesOfAt(ps, i);
      SerializeHasNoLineBreak(ps[i]);
      assert cs[i] == Frame(Serialize(ps[i]));
    }
  }

  /** A payload's frame differs from the `[DONE]` frame in the first character of its data. */
  lemma FrameIsNotDone(p: Payload)
    ensures Frame(Serialize(p)) != DoneFrame
  {
    var d := Serialize(p);
    assert d[0] == '{';
    assert Frame(d) == "data: " + (d + "\n\n");
    assert Frame(d)[6] == '{';
    assert DoneFrame[6] == '[';
  }

  /** No payload's frame is the `[DONE]` frame: only the normal end sends the marker. */
  lemma DoneIsNoPayloadFrame(ts: seq<Tick>)
    ensures DoneFrame !in Frames(ts)
  {
    forall i | 0 <= i < |Frames(ts)|
      ensures Frames(ts)[i] != DoneFrame
    {
      FramesOfAt(Payloads(ts), i);
      FrameIsNotDone(Payloads(ts)[i]);
    }
  }

  /**
   * Every chunk of the stream is `data: ` followed by a single line of data and a
   * blank line, and the last chunk is the `[DONE]` marker.
   */
  lemma ChunksAreFrames(ts: seq<Tick>)
    ensures var cs := StreamChunks(ts);
      && |cs| == |Payloads(ts)| + 1
      && cs[|cs| - 1] == DoneFrame
      && forall i :: 0 <= i < |cs| ==> exists d :: cs[i] == Frame(d) && NoLineBreak(d)
  {
    var ps := Payloads(ts);
    assert StreamChunks(ts) == FramesOf(ps) + [DoneFrame];
    forall i | 0 <= i <= |ps| ensures exists d :: (FramesOf(ps) + [DoneFrame])[i] == Frame(d) && NoLineBreak(d) {
      ChunkIsFrame(ps, i);
    }
  }

  lemma {:induction false} FramesOfAt(ps: seq<Payload>, i: nat)
    requires i < |ps|
    ensures FramesOf(ps)[i] == Frame(Serialize(ps[i]))
  {
    if i > 0 {
      FramesOfAt(ps[1..], i - 1);
    }
  }

  // ---------------------------------------------------------------------------
  // Reading the stream back

  /** What a reader of the stream receives. */
  datatype StreamMessage = Data(payload: Payload) | DoneMarker

  /** `t` without its leading `prefix`, if it starts with it. */
  function Expect(prefix: string, t: string): Option<string> {
    if |prefix| <= |t| && t[..|prefix|] == prefix then Some(t[|prefix|..]) else None
  }

  /** Reads `<quoted>,"timestamp":<quoted>}` to its two strings. */
  function ReadFields(t: string): Option<(string, string)> {
    var first :- Unquote(t);
    var afterKey :- Expect(TimestampKey, first.1);
    var second :- Unquote(afterKey);
    if second.1 == "}" then Some((first.0, second.0)) else None
  }

  function ReadPayload(d: string): Option<Payload> {
    match Expect(TextHead, d)
    case Some(t) =>
      var f :- ReadFields(t);
      Some(TextPayload(f.0, f.1))
    case None =>
      var t :- Expect(HandoffHead, d);
      var f :- ReadFields(t);
      Some(HandoffPayload(f.0, f.1))
  }

  /** The data of one frame: the `[DONE]` marker or a payload. */
  function ReadMessage(data: string): Option<StreamMessage> {
    if data == "[DONE]" then Some(DoneMarker)
    else match ReadPayload(data) case Some(p) => Some(Data(p)) case None => None
  }

  /** The index of the first line feed in `s`, or `|s|`. */
  function LineEnd(s: string): (k: nat)
    ensures k <= |s|
  {
    if s == [] || s[0] == '\n' then 0 else 1 + LineEnd(s[1..])
  }

  /** Splits a stream of `data: <line>\n\n` frames into messages. */
  function ReadStream(s: string): Option<seq<StreamMessage>>
    decreases |s|
  {
    if s == [] then Some([])
    else
      var body :- Expect("data: ", s);
      var k := LineEnd(body);
      if k + 1 < |body| && body[k + 1] == '\n' then
        var message :- ReadMessage(body[..k]);
        var rest :- ReadStream(body[k + 2..]);
        Some([message] + rest)
      else None
  }

  lemma ReadFieldsQuoted(a: string, b: string)
    ensures ReadFields(Quote(a) + TimestampKey + Quote(b) + "}") == Some((a, b))
  {
    var afterKey := Quote(b) + "}";
    var rest := TimestampKey + afterKey;
    assert Quote(a) + TimestampKey + Quote(b) + "}" == Quote(a) + rest;
    UnquoteQuote(a, rest);
    assert Unquote(Quote(a) + rest) == Some((a, rest));
    assert rest[..|TimestampKey|] == TimestampKey && rest[|TimestampKey|..] == afterKey;
    assert Expect(TimestampKey, rest) == Some(afterKey);
    UnquoteQuote(b, "}");
    assert Unquote(afterKey) == Some((b, "}"));
  }

  lemma ReadTextPayload(c: string, at: string)
    ensures ReadPayload(Serialize(TextPayload(c, at))) == Some(TextPayload(c, at))
  {
    var t := Quote(c) + TimestampKey + Quote(at) + "}";
    var d := TextHead + t;
    assert Serialize(TextPayload(c, at)) == d;
    assert d[..|TextHead|] == TextHead && d[|TextHead|..] == t;
    assert Expect(TextHead, d) == Some(t);
    ReadFieldsQuoted(c, at);
  }

  lemma ReadHandoffPayload(a: string, at: string)
    ensures ReadPayload(Serialize(HandoffPayload(a, at))) == Some(HandoffPayload(a, at))
  {
    var t := Quote(a) + TimestampKey + Quote(at) + "}";
    var d := HandoffHead + t;
    assert Serialize(HandoffPayload(a, at)) == d;
    assert d[9] == 'h' && TextHead[9] == 't';
    assert Expect(TextHead, d) == None;
    assert d[..|HandoffHead|] == HandoffHead && d[|HandoffHead|..] == t;
    assert Expect(HandoffHead, d) == Some(t);
    ReadFieldsQuoted(a, at);
  }

  /** Reading a serialized payload gives the payload back. */
  lemma ReadSerialize(p: Payload)
    ensures ReadPayload(Serialize(p)) == Some(p)
  {
    match p
    case TextPayload(c, at) => ReadTextPayload(c, at);
    case HandoffPayload(a, at) => ReadHandoffPayload(a, at);
  }

  lemma {:induction false} LineEndOfLine(d: string, rest: string)
    requires NoLineBreak(d)
    ensures LineEnd(d + rest) == |d| || (rest != [] && rest[0] != '\n')
    ensures rest != [] && rest[0] == '\n' ==> LineEnd(d + rest) == |d|
  {
    if d != [] {
      assert (d + rest)[1..] == d[1..] + rest;
      LineEndOfLine(d[1..], rest);
    }
  }

  /** One frame whose data is a single line is read as that data, and reading goes on after it. */
  lemma ReadFrame(d: string, rest: string)
    requires NoLineBreak(d)
    ensures var s := Frame(d) + rest;
      var body := d + "\n\n" + rest;
      && Expect("data: ", s) == Some(body)
      && LineEnd(body) == |d|
      && body[..|d|] == d
      && body[|d| + 2..] == rest
  {
    var s := Frame(d) + rest;
    var body := d + "\n\n" + rest;
    assert s == "data: " + body;
    assert s[..6] == "data: " && s[6..] == body;
    LineEndOfLine(d, "\n\n" + rest);
    assert body == d + ("\n\n" + rest);
  }

  /** The messages a reader gets for these payloads. */
  function DataMessages(ps: seq<Payload>): (r: seq<StreamMessage>)
    ensures |r| == |ps|
  {
    if ps == [] then [] else [Data(ps[0])] + DataMessages(ps[1..])
  }

  /** Reading a stream that starts with a one-line frame reads that frame's message, then the rest. */
  lemma ReadStreamCons(d: string, rest: string)
    requires NoLineBreak(d)
    ensures ReadStream(Frame(d) + rest)
         == (match (ReadMessage(d), ReadStream(rest))
             case (Some(m), Some(r)) => Some([m] + r)
             case _ => None)
  {
    ReadFrame(d, rest);
  }

  lemma ReadMessageSerialize(p: Payload)
    ensures ReadMessage(Serialize(p)) == Some(Data(p))
  {
    var d := Serialize(p);
    assert d[0] == '{' && "[DONE]"[0] == '[';
    ReadSerialize(p);
  }

  lemma ReadDoneFrame()
    ensures ReadStream(Concat([DoneFrame])) == Some([DoneMarker])
  {
    ConcatCons(DoneFrame, []);
    assert [DoneFrame] + [] == [DoneFrame];
    assert Concat([DoneFrame]) == DoneFrame;
    assert DoneFrame == Frame("[DONE]") + [];
    ReadStreamCons("[DONE]", []);
    assert ReadMessage("[DONE]") == Some(DoneMarker);
    assert ReadStream([]) == Some([]);
    assert [DoneMarker] + [] == [DoneMarker];
  }

  lemma ConcatCons(c: string, cs: seq<string>)
    ensures Concat([c] + cs) == c + Concat(cs)
  {
    assert ([c] + cs)[1..] == cs;
  }

  /** A reader of the whole stream receives the payloads in event order, then the `[DONE]` marker. */
  lemma {:induction false} ReadStreamChunksOf(ps: seq<Payload>)
    ensures ReadStream(Concat(FramesOf(ps) + [DoneFrame])) == Some(DataMessages(ps) + [DoneMarker])
  {
    if ps == [] {
      assert FramesOf(ps) + [DoneFrame] == [DoneFrame];
      ReadDoneFrame();
      assert DataMessages(ps) + [DoneMarker] == [DoneMarker];
    } else {
      var d := Serialize(ps[0]);
      var tail := FramesOf(ps[1..]) + [DoneFrame];
      assert FramesOf(ps) + [DoneFrame] == [Frame(d)] + tail;
      ConcatCons(Frame(d), tail);
      SerializeHasNoLineBreak(ps[0]);
      ReadMessageSerialize(ps[0]);
      ReadStreamChunksOf(ps[1..]);
      ReadStreamCons(d, Concat(tail));
      assert DataMessages(ps) + [DoneMarker] == [Data(ps[0])] + (DataMessages(ps[1..]) + [DoneMarker]);
    }
  }

  /** The client-side view of a completed stream: every event's payload, in order, then `[DONE]`. */
  lemma StreamRoundTrip(ts: seq<Tick>)
    ensures ReadStream(Concat(StreamChunks(ts))) == Some(DataMessages(Payloads(ts)) + [DoneMarker])
  {
    ReadStreamChunksOf(Payloads(ts));
  }

  // ---------------------------------------------------------------------------
  // The ReadableStream controller and the `start` callback

  /**
   * The stream's state. `Cancelled` is the closed state a reader's cancel
   * leads to, kept apart from `Closed`, where the controller closed it.
   */
  datatype StreamState = Readable | Closed | Cancelled | Errored(reason: string)

  /** The message of the TypeError `enqueue` throws once the stream is not readable. */
  const NotReadable := "TypeError: the stream is not readable"

  /**
   * The part of a ReadableStreamDefaultController that `start` uses, with the
   * stream's queue. `chunks` is every chunk ever enqueued, `delivered` the ones
   * the response's reader has taken, and `queue` the ones waiting to be read.
   */
  class StreamController {
    var chunks: seq<string>
    var delivered: seq<string>
    var queue: seq<string>
    var state: StreamState

    /**
     * The reader has taken a prefix of what was enqueued; the rest waits in the
     * queue, unless an error or a cancel has reset the queue.
     */
    predicate Valid()
      reads this
    {
      && |delivered| <= |chunks|
      && delivered == chunks[..|delivered|]
      && (if state.Errored? || state.Cancelled? then queue == [] else queue == chunks[|delivered|..])
    }

    constructor ()
      ensures Valid()
      ensures chunks == [] && delivered == [] && queue == [] && state == Readable
    {
      chunks := [];
      delivered := [];
      queue := [];
      state := Readable;
    }

    /**
     * Appends a chunk to a readable stream. On any other stream `enqueue`
     * throws a TypeError: `thrown` is set and nothing changes.
     */
    method Enqueue(chunk: string) returns (thrown: bool)
      requires Valid()
      modifies this
      ensures Valid()
      ensures thrown <==> old(state) != Readable
      ensures !thrown ==> chunks == old(chunks) + [chunk] && queue == old(queue) + [chunk]
      ensures thrown ==> chunks == old(chunks) && queue == old(queue)
      ensures delivered == old(delivered) && state == old(state)
    {
      thrown := state != Readable;
      if !thrown {
        chunks := chunks + [chunk];
        queue := queue + [chunk];
      }
    }

    method Close()
      requires Valid() && state == Readable
      modifies this
      ensures Valid()
      ensures chunks == old(chunks) && queue == old(queue) && delivered == old(delivered) && state == Closed
    {
      state := Closed;
    }

    /**
     * Errors a readable stream. As the controller's error steps do, this
     * resets the queue: chunks not yet read are never delivered. On a stream
     * already closed, cancelled or errored it does nothing.
     */
    method Error(reason: string)
      requires Valid()
      modifies this
      ensures Valid()
      ensures chunks == old(chunks) && delivered == old(delivered)
      ensures old(state) == Readable ==> queue == [] && state == Errored(reason)
      ensures old(state) != Readable ==> queue == old(queue) && state == old(state)
    {
      if state == Readable {
        queue := [];
        state := Errored(reason);
      }
    }

    /**
     * The response's reader cancels the stream (the client disconnects). A
     * readable stream is closed and its queue reset, so nothing more is
     * delivered and every later `enqueue` throws. Otherwise nothing happens.
     */
    method Cancel()
      requires Valid()
      modifies this
      ensures Valid()
      ensures chunks == old(chunks) && delivered == old(delivered)
      ensures old(state) == Readable ==> queue == [] && state == Cancelled
      ensures old(state) != Readable ==> queue == old(queue) && state == old(state)
    {
      if state == Readable {
        queue := [];
        state := Cancelled;
      }
    }

    /** The response's reader takes the oldest queued chunk. */
    method Read() returns (chunk: string)
      requires Valid() && queue != []
      modifies this
      ensures Valid()
      ensures chunk == old(queue)[0] && queue == old(queue)[1..]
      ensures delivered == old(delivered) + [chunk] && chunks == old(chunks) && state == old(state)
    {
      chunk := queue[0];
      queue := queue[1..];
      delivered := delivered + [chunk];
      assert chunks[..|delivered|] == chunks[..|delivered| - 1] + [chunks[|delivered| - 1]];
    }
  }

  /**
   * The body of the `for await` loop: enqueues the frame for one event, if it
   * has one. `thrown` is set when that `enqueue` throws, which happens exactly
   * when the event has a frame and the stream is no longer readable.
   */
  method HandleEvent(controller: StreamController, t: Tick) returns (thrown: bool)
    requires controller.Valid()
    modifies controller
    ensures controller.Valid()
    ensures controller.delivered == old(controller.delivered) && controller.state == old(controller.state)
    ensures old(controller.state) == Readable ==>
      && !thrown
      && controller.chunks == old(controller.chunks) + FramesOf(TickPayloads(t))
      && controller.queue == old(controller.queue) + FramesOf(TickPayloads(t))
    ensures old(controller.state) != Readable ==>
      && (thrown <==> TickPayloads(t) != [])
      && controller.chunks == old(controller.chunks) && controller.queue == old(controller.queue)
  {
    thrown := false;
    match t.event {
      case RunItemEvent(item) =>
        if item.content.Some? && item.content.value.JString? {
          thrown := controller.Enqueue(Frame(Serialize(TextPayload(item.content.value.s, t.at))));
        }
      case AgentUpdatedEvent(name) =>
        thrown := controller.Enqueue(Frame(Serialize(HandoffPayload(name, t.at))));
      case OtherEvent(_) =>
    }
  }

  /** The frames of one more event of `ticks`. */
  lemma FramesStep(ticks: seq<Tick>, i: nat)
    requires i < |ticks|
    ensures Frames(ticks[..i + 1]) == Frames(ticks[..i]) + FramesOf(TickPayloads(ticks[i]))
  {
    assert ticks[..i + 1] == ticks[..i] + [ticks[i]];
    FramesSnoc(ticks[..i], ticks[i]);
  }

  /** `FramesStep` after a given prefix of chunks. */
  lemma FramesAfter(prefix: seq<string>, ticks: seq<Tick>, i: nat)
    requires i < |ticks|
    ensures prefix + Frames(ticks[..i]) + FramesOf(TickPayloads(ticks[i])) == prefix + Frames(ticks[..i + 1])
  {
    FramesStep(ticks, i);
  }

  /** The frames of a list of events are those of a prefix followed by those of the rest. */
  lemma FramesSplit(ticks: seq<Tick>, i: nat)
    requires i <= |ticks|
    ensures Frames(ticks) == Frames(ticks[..i]) + Frames(ticks[i..])
  {
    assert ticks == ticks[..i] + ticks[i..];
    PayloadsAppend(ticks[..i], ticks[i..]);
    FramesOfAppend(Payloads(ticks[..i]), Payloads(ticks[i..]));
  }

  /** The `for await` loop over the events the iteration delivers, on a readable stream. */
  method Pump(controller: StreamController, ticks: seq<Tick>)
    requires controller.Valid() && controller.state == Readable
    modifies controller
    ensures controller.Valid()
    ensures controller.chunks == old(controller.chunks) + Frames(ticks)
    ensures controller.queue == old(controller.queue) + Frames(ticks)
    ensures controller.delivered == old(controller.delivered) && controller.state == Readable
  {
    ghost var chunks0, queue0 := controller.chunks, controller.queue;
    var i := 0;
    while i < |ticks|
      invariant 0 <= i <= |ticks|
      invariant controller.Valid() && controller.state == Readable
      invariant controller.chunks == chunks0 + Frames(ticks[..i])
      invariant controller.queue == queue0 + Frames(ticks[..i])
      invariant controller.delivered == old(controller.delivered)
    {
      var _ := HandleEvent(controller, ticks[i]);
      FramesAfter(chunks0, ticks, i);
      FramesAfter(queue0, ticks, i);
      i := i + 1;
    }
    assert ticks[..i] == ticks;
  }

  /**
   * The same loop once the stream is no longer readable: it leaves at the
   * first event with a frame, whose `enqueue` throws (`thrown`), and changes
   * nothing on the way.
   */
  method PumpRefused(controller: StreamController, ticks: seq<Tick>) returns (thrown: bool)
    requires controller.Valid() && controller.state != Readable
    modifies controller
    ensures controller.Valid()
    ensures thrown <==> Frames(ticks) != []
    ensures controller.chunks == old(controller.chunks) && controller.queue == old(controller.queue)
    ensures controller.delivered == old(controller.delivered) && controller.state == old(controller.state)
  {
    thrown := false;
    var i := 0;
    while i < |ticks| && !thrown
      invariant 0 <= i <= |ticks|
      invariant controller.Valid() && controller.state == old(controller.state)
      invariant thrown <==> Frames(ticks[..i]) != []
      invariant controller.chunks == old(controller.chunks) && controller.queue == old(controller.queue)
      invariant controller.delivered == old(controller.delivered)
    {
      thrown := HandleEvent(controller, ticks[i]);
      FramesStep(ticks, i);
      i := i + 1;
    }
    FramesSplit(ticks, i);
    if !thrown {
      assert ticks[..i] == ticks;
    }
  }

  /**
   * The `start(controller)` callback. `cancel` is the point, if any, at which
   * the client cancels the response stream: after the loop has handled that
   * many events. Without a cancel, a normal end enqueues the `[DONE]` frame
   * and closes, and an iteration that throws errors the stream, dropping
   * its unread frames with the queue. After a cancel the next `enqueue`
   * throws, and the `catch` errors a stream that is no longer readable,
   * which does nothing: no `[DONE]` is sent.
   */
  method Start(controller: StreamController, ticks: seq<Tick>, end: StreamEnd, cancel: Option<nat>)
    requires controller.Valid() && controller.state == Readable
    requires cancel.Some? ==> cancel.value <= |ticks|
    modifies controller
    ensures controller.Valid() && controller.delivered == old(controller.delivered)
    ensures cancel == None && end == Exhausted ==>
      && controller.chunks == old(controller.chunks) + StreamChunks(ticks)
      && controller.queue == old(controller.queue) + StreamChunks(ticks)
      && controller.state == Closed
    ensures cancel == None && end.IterationFailed? ==>
      && controller.chunks == old(controller.chunks) + Frames(ticks)
      && controller.queue == []
      && controller.state == Errored(end.reason)
    ensures cancel.Some? ==>
      && controller.chunks == old(controller.chunks) + Frames(ticks[..cancel.value])
      && controller.queue == []
      && controller.state == Cancelled
  {
    // The events handled before the cancel, then the rest of the loop.
    match cancel {
      case None =>
        Pump(controller, ticks);
        match end {
          case Exhausted =>
            var _ := controller.Enqueue(DoneFrame);
            controller.Close();
            assert old(controller.chunks) + Frames(ticks) + [DoneFrame] == old(controller.chunks) + StreamChunks(ticks);
            assert old(controller.queue) + Frames(ticks) + [DoneFrame] == old(controller.queue) + StreamChunks(ticks);
          case IterationFailed(reason) =>
            controller.Error(reason);
        }
      case Some(c) =>
        // The events handled before the cancel, then the rest of the loop.
        Pump(controller, ticks[..c]);
        controller.Cancel();
        var thrown := PumpRefused(controller, ticks[c..]);
        if !thrown && end == Exhausted {
          thrown := controller.Enqueue(DoneFrame);
        }
        controller.Error(if thrown then NotReadable else end.reason);
    }
  }
}
