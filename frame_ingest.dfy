/**
 * Specification of the frame-ingestion pipeline of main/main.c: the WebSocket
 * handler (producer) and one iteration of the display task (consumer), as
 * functions over the shared state: the session configuration, the frame queue
 * of capacity 5, the message counter, and the heap bookkeeping of the buffers
 * the two tasks allocate and free.
 *
 * The two FreeRTOS tasks are modelled as an interleaving of atomic handler and
 * consumer steps (Run). The imperative versions of both steps, over the
 * globals, are in module FrameTasks and are proved equal to these functions.
 */
module FrameIngest {
  import opened EspCommon
  import opened FrameDims

  type byte = u8

  /** xQueueCreate(5, ...) */
  const QueueCapacity := 5
  /** The receive buffer: malloc(64 * 1024). */
  const RxBufferSize := 64 * 1024
  /** httpd_req_recv reads at most 64 * 1024 - 1 bytes, leaving room for the NUL. */
  const RecvLimit := RxBufferSize - 1
  /** The classifier inspects at most this many leading bytes. */
  const ClassifyPrefix := 16
  /** Dimensions used when nothing is configured and detection fails. */
  const FallbackDims := Dims(640, 480)

  const Tab: byte := 9
  const Newline: byte := 10
  const CarriageReturn: byte := 13
  /** "ping" in ASCII. */
  const PingBytes: seq<byte> := [112, 105, 110, 103]
  const BlitConfigType := "blit_config"
  /** The type cJSON reports for a document without a "type" member. */
  const UnknownType := "unknown"

  // ---------------------------------------------------------------------------
  // Messages
  // ---------------------------------------------------------------------------

  /** A control byte: below 32 and none of newline, carriage return, tab. */
  predicate IsControlByte(b: byte)
  {
    b < 32 && b != Newline && b != CarriageReturn && b != Tab
  }

  function Min(a: int, b: int): int { if a < b then a else b }

  /** A message is binary when a control byte occurs among its first 16 bytes. */
  predicate IsBinary(data: seq<byte>)
  {
    exists i :: 0 <= i < Min(|data|, ClassifyPrefix) && IsControlByte(data[i])
  }

  /** strncmp(buf, "ping", 4) == 0 on the NUL-terminated message. */
  predicate IsPing(data: seq<byte>)
  {
    |data| >= 4 && data[..4] == PingBytes
  }

  /** The "type" member as cJSON_GetStringValue sees it. */
  datatype TypeItem = NoType | StringType(name: string) | NonStringType

  /**
   * What the core reads from a parsed JSON document: its type and the
   * frameWidth / frameHeight members, each already converted by the
   * (uint16_t) cast of the source.
   */
  datatype JsonDoc = JsonDoc(typeItem: TypeItem, frameWidth: Option<u16>, frameHeight: Option<u16>)

  /**
   * An HTTP request to the handler. For a POST, `data` is what httpd_req_recv
   * delivered (empty when it returned 0 or an error) and `json` is what
   * cJSON_Parse returns for the NUL-terminated text (None when parsing fails).
   */
  datatype Request = Get | Post(data: seq<byte>, json: Option<JsonDoc>)

  /** Outcomes of the handler's two mallocs: the receive buffer and the frame copy. */
  datatype Alloc = Alloc(rxBufferOk: bool, frameCopyOk: bool)

  datatype Reply = NoReply | DeviceConnected | Pong

  function MessageType(doc: JsonDoc): string
    requires doc.typeItem != NonStringType
  {
    match doc.typeItem
    case NoType => UnknownType
    case StringType(name) => name
  }

  /**
   * The request is one the source handles without undefined behaviour: the
   * transport delivers at most RecvLimit bytes, and a text message that reaches
   * the strcmp on its type has a string type (cJSON_GetStringValue would return NULL).
   */
  predicate HandlerDefined(req: Request)
  {
    req.Post? ==>
      && |req.data| <= RecvLimit
      && (|req.data| > 0 && !IsBinary(req.data) && !IsPing(req.data) && req.json.Some? ==>
            req.json.value.typeItem != NonStringType)
  }

  // ---------------------------------------------------------------------------
  // State
  // ---------------------------------------------------------------------------

  /** current_frame_width, current_frame_height, config_received. */
  datatype Session = Session(width: u16, height: u16, configReceived: bool)

  /** A frame_message_t: a configuration item, or a payload owning heap buffer `buf`. */
  datatype Item =
    | Config(width: u16, height: u16)
    | Payload(buf: nat, data: seq<byte>, width: u16, height: u16)

  /** A frame handed to the display: the "drawn(buf)" event. */
  datatype Frame = Frame(data: seq<byte>, width: u16, height: u16)

  /**
   * The shared state. Heap buffers are named by the order of their malloc
   * (nextBuf is the next name); `live` holds the buffers allocated and not yet
   * freed, `freed` lists the frees in order.
   */
  datatype State = State(
    session: Session,
    queue: seq<Item>,
    messageCount: u32,
    nextBuf: nat,
    live: set<nat>,
    freed: seq<nat>)

  /** The state at start-up: nothing configured, an empty queue, message_count = 1. */
  const Initial := State(Session(0, 0, false), [], 1, 0, {}, [])

  function Malloc(st: State): State
  {
    st.(nextBuf := st.nextBuf + 1, live := st.live + {st.nextBuf})
  }

  function Free(st: State, id: nat): State
  {
    st.(live := st.live - {id}, freed := st.freed + [id])
  }

  // ---------------------------------------------------------------------------
  // Producer: ws_handler
  // ---------------------------------------------------------------------------

  /**
   * The dimensions chosen for a binary payload of recvLen bytes: the configured
   * ones when the length matches them, else detected ones, else the configured
   * ones (when configured) or 640x480 (when not).
   */
  function Resolve(s: Session, recvLen: nat): (r: Dims)
    requires recvLen <= RecvLimit
    ensures r.width > 0 && r.height > 0
    ensures s.configReceived && s.width > 0 && s.height > 0 && recvLen == s.width * s.height * 2 ==>
              r == Dims(s.width, s.height)
    ensures s.configReceived && s.width > 0 && s.height > 0 && recvLen != s.width * s.height * 2 ==>
              r == (if Detect(recvLen).Some? then Detect(recvLen).value else Dims(s.width, s.height))
    ensures !(s.configReceived && s.width > 0 && s.height > 0) ==>
              r == (if Detect(recvLen).Some? then Detect(recvLen).value else FallbackDims)
  {
    if s.configReceived && s.width != 0 && s.height != 0 then
      if recvLen == s.width * s.height * 2 then Dims(s.width, s.height)
      else
        match Detect(recvLen)
        case Some(d) => d
        case None => Dims(s.width, s.height)
    else
      match Detect(recvLen)
      case Some(d) => d
      case None => FallbackDims
  }

  /** xQueueSend with timeout 0: appends when there is room, otherwise fails at once. */
  function Send(q: seq<Item>, item: Item): (seq<Item>, bool)
  {
    if |q| < QueueCapacity then (q + [item], true) else (q, false)
  }

  /**
   * The binary branch after classification: resolve dimensions, copy the message
   * into a fresh buffer (which may fail), send it, and free the copy if the send fails.
   */
  function PublishFrame(st: State, data: seq<byte>, copyOk: bool): State
    requires |data| <= RecvLimit
  {
    var d := Resolve(st.session, |data|);
    if !copyOk then st
    else
      var id := st.nextBuf;
      var st1 := Malloc(st);
      var (q, sent) := Send(st1.queue, Payload(id, data, d.width, d.height));
      if sent then st1.(queue := q) else Free(st1, id)
  }

  /** The configuration item a text message asks for: blit_config with both frameWidth and frameHeight. */
  function ConfigRequest(json: Option<JsonDoc>): Option<Item>
    requires json.Some? ==> json.value.typeItem != NonStringType
  {
    if json.Some? && MessageType(json.value) == BlitConfigType
       && json.value.frameWidth.Some? && json.value.frameHeight.Some?
    then Some(Config(json.value.frameWidth.value, json.value.frameHeight.value))
    else None
  }

  /** The JSON branch: a blit_config item is sent without waiting; a failed send is ignored. */
  function PublishConfig(st: State, json: Option<JsonDoc>): State
    requires json.Some? ==> json.value.typeItem != NonStringType
  {
    match ConfigRequest(json)
    case None => st
    case Some(item) => st.(queue := Send(st.queue, item).0)
  }

  function CountMessage(st: State): State
  {
    st.(messageCount := Wrap32(st.messageCount + 1))
  }

  datatype Outcome = Outcome(state: State, err: EspErr, reply: Reply)

  /** One call of ws_handler. */
  function Handle(st: State, req: Request, alloc: Alloc): (o: Outcome)
    requires HandlerDefined(req)
    ensures o.state.session == st.session
    ensures st.queue <= o.state.queue && |o.state.queue| <= |st.queue| + 1
    ensures |st.queue| >= QueueCapacity ==> o.state.queue == st.queue
  {
    match req
    case Get => Outcome(st, EspOk, DeviceConnected)
    case Post(data, json) =>
      if !alloc.rxBufferOk then Outcome(st, ErrNoMem, NoReply)
      else
        var rx := st.nextBuf;
        var st1 := Malloc(st);
        if |data| == 0 then
          Outcome(Free(st1, rx), EspOk, NoReply)
        else if IsBinary(data) then
          Outcome(Free(CountMessage(PublishFrame(st1, data, alloc.frameCopyOk)), rx), EspOk, NoReply)
        else if IsPing(data) then
          Outcome(Free(st1, rx), EspOk, Pong)
        else
          Outcome(Free(CountMessage(PublishConfig(st1, json)), rx), EspOk, NoReply)
  }

  // ---------------------------------------------------------------------------
  // Consumer: one iteration of frame_display_task
  // ---------------------------------------------------------------------------

  datatype Consumed = Consumed(state: State, drawn: Option<Frame>)

  /**
   * One iteration of the display task. With an empty queue the task stays
   * blocked in xQueueReceive and nothing changes. A config item replaces the
   * session and draws nothing; a payload is drawn and its buffer freed.
   */
  function Consume(st: State): (r: Consumed)
    ensures r.state.session != st.session ==> st.queue != [] && st.queue[0].Config?
    ensures r.drawn.Some? ==> st.queue != [] && st.queue[0].Payload?
    ensures st.queue == [] ==> r == Consumed(st, None)
    ensures st.queue != [] ==> r.state.queue == st.queue[1..]
    ensures st.queue != [] && st.queue[0].Payload? ==>
              && r.state.session == st.session
              && r.state.live == st.live - {st.queue[0].buf}
              && r.state.freed == st.freed + [st.queue[0].buf]
              && r.drawn == (if |st.queue[0].data| > 0 then Some(Frame(st.queue[0].data, st.queue[0].width, st.queue[0].height)) else None)
    ensures st.queue != [] && st.queue[0].Config? ==>
              && r.state.session == Session(st.queue[0].width, st.queue[0].height, true)
              && r.state.live == st.live && r.state.freed == st.freed && r.drawn == None
  {
    if st.queue == [] then Consumed(st, None)
    else
      var rest := st.queue[1..];
      match st.queue[0]
      case Config(w, h) =>
        Consumed(st.(queue := rest, session := Session(w, h, true)), None)
      case Payload(id, data, w, h) =>
        var drawn := if |data| > 0 then Some(Frame(data, w, h)) else None;
        Consumed(Free(st.(queue := rest), id), drawn)
  }

  // ---------------------------------------------------------------------------
  // Interleavings of the two tasks
  // ---------------------------------------------------------------------------

  datatype Event = HandlerEvent(req: Request, alloc: Alloc) | ConsumerEvent

  predicate EventDefined(e: Event)
  {
    e.HandlerEvent? ==> HandlerDefined(e.req)
  }

  function Step(st: State, e: Event): State
    requires EventDefined(e)
  {
    match e
    case HandlerEvent(req, alloc) => Handle(st, req, alloc).state
    case ConsumerEvent => Consume(st).state
  }

  function Run(st: State, evs: seq<Event>): State
    requires forall i :: 0 <= i < |evs| ==> EventDefined(evs[i])
    decreases |evs|
  {
    if evs == [] then st else Run(Step(st, evs[0]), evs[1..])
  }

  /** The consumer alone, run until the queue is empty; returns the end state and the frames drawn. */
  function Drain(st: State): (State, seq<Frame>)
    decreases |st.queue|
  {
    if st.queue == [] then (st, [])
    else
      var c := Consume(st);
      var rest := Drain(c.state);
      (rest.0, (if c.drawn.Some? then [c.drawn.value] else []) + rest.1)
  }

  /** The session after applying, in order, every config item of q. */
  function LastConfig(s: Session, q: seq<Item>): Session
    decreases |q|
  {
    if q == [] then s
    else LastConfig(if q[0].Config? then Session(q[0].width, q[0].height, true) else s, q[1..])
  }

  /** The frames the payloads of q draw, in queue order. */
  function PayloadFrames(q: seq<Item>): seq<Frame>
    decreases |q|
  {
    if q == [] then []
    else if q[0].Payload? && |q[0].data| > 0 then [Frame(q[0].data, q[0].width, q[0].height)] + PayloadFrames(q[1..])
    else PayloadFrames(q[1..])
  }

  // ---------------------------------------------------------------------------
  // Ownership invariant
  // ---------------------------------------------------------------------------

  function QueuedBufs(q: seq<Item>): set<nat>
  {
    set i | 0 <= i < |q| && q[i].Payload? :: q[i].buf
  }

  predicate DistinctBufs(q: seq<Item>)
  {
    forall i, j :: 0 <= i < j < |q| && q[i].Payload? && q[j].Payload? ==> q[i].buf != q[j].buf
  }

  predicate Distinct(s: seq<nat>)
  {
    forall i, j :: 0 <= i < j < |s| ==> s[i] != s[j]
  }

  /**
   * The queue holds at most 5 items; the live buffers are exactly those owned
   * by queued payloads, each owned by one; every buffer ever allocated is either
   * live or freed, never both, and freed at most once; queued payloads are non-empty.
   */
  ghost predicate Inv(st: State)
  {
    && |st.queue| <= QueueCapacity
    && st.live == QueuedBufs(st.queue)
    && DistinctBufs(st.queue)
    && Distinct(st.freed)
    && (forall id :: id in st.live ==> id < st.nextBuf)
    && (forall id :: id in st.freed ==> id < st.nextBuf && id !in st.live)
    && (forall id :: 0 <= id < st.nextBuf ==> id in st.live || id in st.freed)
    && (forall i :: 0 <= i < |st.queue| && st.queue[i].Payload? ==> |st.queue[i].data| > 0)
  }
}
