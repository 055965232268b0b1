/**
 * The globals of main/main.c and the two tasks that share them, as imperative
 * code: ws_handler (the producer, run by the HTTP server) and one iteration of
 * frame_display_task (the consumer). Each method is proved to compute exactly
 * the step given by the functions of module FrameIngest, and to keep the
 * buffer-ownership invariant proved there.
 */
module FrameTasks {
  import opened EspCommon
  import opened FrameDims
  import opened FrameIngest
  import IngestProperties

  /**
   * frame_queue, current_frame_width, current_frame_height, config_received
   * and the static message_count of ws_handler. `nextBuf` stands for the
   * address malloc hands out next (a queued payload carries it as its
   * pointer); the live buffers and the log of frees are ghost bookkeeping for
   * the ownership invariant.
   */
  class FrameSystem {
    var width: u16
    var height: u16
    var configReceived: bool
    var queue: seq<Item>
    var messageCount: u32
    var nextBuf: nat
    ghost var live: set<nat>
    ghost var freed: seq<nat>

    /** The globals as a value of the specification. */
    ghost function Snapshot(): State
      reads this
    {
      State(Session(width, height, configReceived), queue, messageCount, nextBuf, live, freed)
    }

    /** The globals at start-up (queue created empty, message_count = 1). */
    constructor ()
      ensures Snapshot() == Initial
    {
      width := 0;
      height := 0;
      configReceived := false;
      queue := [];
      messageCount := 1;
      nextBuf := 0;
      live := {};
      freed := [];
    }

    method Malloc() returns (id: nat)
      modifies this
      ensures id == old(nextBuf)
      ensures Snapshot() == FrameIngest.Malloc(old(Snapshot()))
    {
      id := nextBuf;
      nextBuf := nextBuf + 1;
      live := live + {id};
    }

    method Free(id: nat)
      modifies this
      ensures Snapshot() == FrameIngest.Free(old(Snapshot()), id)
    {
      live := live - {id};
      freed := freed + [id];
    }

    /** xQueueSend(frame_queue, &item, 0): no waiting; false when the queue is full. */
    method QueueSend(item: Item) returns (sent: bool)
      modifies this
      ensures (queue, sent) == Send(old(queue), item)
      ensures Snapshot() == old(Snapshot()).(queue := queue)
    {
      sent := |queue| < QueueCapacity;
      if sent {
        queue := queue + [item];
      }
    }

    /** The dimensions ws_handler picks for a binary message of recvLen bytes. */
    method ResolveDimensions(recvLen: nat) returns (dims: Dims)
      requires recvLen <= RecvLimit
      ensures dims == Resolve(Snapshot().session, recvLen)
    {
      var displayWidth, displayHeight := width, height;
      if configReceived && width != 0 && height != 0 {
        var expectedSize := width * height * 2;
        if recvLen != expectedSize {
          var found;
          found, displayWidth, displayHeight := DetectFrameDimensions(recvLen, displayWidth, displayHeight);
        }
      } else {
        var found;
        found, displayWidth, displayHeight := DetectFrameDimensions(recvLen, displayWidth, displayHeight);
        if !found {
          displayWidth, displayHeight := FallbackDims.width, FallbackDims.height;
        }
      }
      return Dims(displayWidth, displayHeight);
    }

    /**
     * Copy a binary message into a fresh buffer (when malloc succeeds) and send
     * it without waiting; a failed send frees the copy.
     */
    method QueueFrame(data: seq<byte>, dims: Dims, copyOk: bool)
      requires |data| <= RecvLimit && dims == Resolve(Snapshot().session, |data|)
      modifies this
      ensures Snapshot() == PublishFrame(old(Snapshot()), data, copyOk)
    {
      if copyOk {
        var id := Malloc();
        var sent := QueueSend(Payload(id, data, dims.width, dims.height));
        if !sent {
          Free(id);
        }
      }
    }

    /** The JSON branch of a text message: a blit_config with both dimensions is sent without waiting. */
    method QueueConfig(json: Option<JsonDoc>)
      requires json.Some? ==> json.value.typeItem != NonStringType
      modifies this
      ensures Snapshot() == PublishConfig(old(Snapshot()), json)
    {
      match json {
        case None =>
        case Some(doc) =>
          var msgType := if doc.typeItem.NoType? then UnknownType else doc.typeItem.name;
          if msgType == BlitConfigType && doc.frameWidth.Some? && doc.frameHeight.Some? {
            var _ := QueueSend(Config(doc.frameWidth.value, doc.frameHeight.value));
          }
      }
    }

    /**
     * ws_handler. A GET answers with the device-connected document; a POST
     * receives into a 64 KiB buffer, classifies the message, and either queues
     * a frame, answers a ping, or queues a blit_config.
     */
    method WsHandler(req: Request, alloc: Alloc) returns (err: EspErr, reply: Reply)
      requires HandlerDefined(req)
      requires Inv(Snapshot())
      modifies this
      ensures Handle(old(Snapshot()), req, alloc) == Outcome(Snapshot(), err, reply)
      ensures Inv(Snapshot())
    {
      ghost var st := Snapshot();
      IngestProperties.HandlePreservesInv(st, req, alloc);
      if req.Get? {
        return EspOk, DeviceConnected;
      }
      if !alloc.rxBufferOk {
        return ErrNoMem, NoReply;
      }
      HandlePost(st, req.data, req.json, alloc);
      var buf := new byte[RxBufferSize];
      var rx := Malloc();
      ghost var st1 := Snapshot();
      var recvLen := |req.data|;
      forall i | 0 <= i < recvLen {
        buf[i] := req.data[i];
      }
      assert buf[..recvLen] == req.data;
      err, reply := EspOk, NoReply;
      if recvLen > 0 {
        var isBinary := IsBinaryMessage(buf, recvLen);
        if isBinary {
          var dims := ResolveDimensions(recvLen);
          if dims.width != 0 && dims.height != 0 {
            QueueFrame(buf[..recvLen], dims, alloc.frameCopyOk);
          }
          assert Snapshot() == PublishFrame(st1, req.data, alloc.frameCopyOk);
        } else {
          buf[recvLen] := 0;
          PingCompare(buf[..], req.data);
          if buf[..4] == PingBytes {
            Free(rx);
            return EspOk, Pong;
          }
          QueueConfig(req.json);
          assert Snapshot() == PublishConfig(st1, req.json);
        }
        ghost var published := Snapshot();
        IncrementWraps(messageCount);
        messageCount := if messageCount == 0xFFFF_FFFF then 0 else messageCount + 1;
        assert Snapshot() == CountMessage(published);
      }
      Free(rx);
    }

    /**
     * One iteration of frame_display_task: take the oldest item; a config
     * replaces the session, a payload is drawn (when non-empty) and its buffer
     * freed. With an empty queue the task stays blocked: nothing changes.
     */
    method DisplayTaskStep() returns (drawn: Option<Frame>)
      requires Inv(Snapshot())
      modifies this
      ensures Consume(old(Snapshot())) == Consumed(Snapshot(), drawn)
      ensures Inv(Snapshot())
    {
      IngestProperties.ConsumePreservesInv(Snapshot());
      if queue == [] {
        return None;
      }
      var msg := queue[0];
      queue := queue[1..];
      drawn := None;
      match msg {
        case Config(w, h) =>
          width, height, configReceived := w, h, true;
        case Payload(id, data, w, h) =>
          if |data| > 0 {
            drawn := Some(Frame(data, w, h));
          }
          Free(id);
      }
    }
  }

  /** message_count++ on a uint32_t wraps from 2^32 - 1 to 0. */
  lemma IncrementWraps(x: u32)
    ensures (if x == 0xFFFF_FFFF then 0 else x + 1) == Wrap32(x + 1)
  {
  }

  /** Handle on a POST whose receive buffer was allocated, branch by branch. */
  lemma HandlePost(st: State, data: seq<byte>, json: Option<JsonDoc>, alloc: Alloc)
    requires HandlerDefined(Post(data, json)) && alloc.rxBufferOk
    ensures var st1 := Malloc(st);
            var o := Handle(st, Post(data, json), alloc);
            && (|data| == 0 ==> o == Outcome(Free(st1, st.nextBuf), EspOk, NoReply))
            && (|data| > 0 && IsBinary(data) ==>
                  o == Outcome(Free(CountMessage(PublishFrame(st1, data, alloc.frameCopyOk)), st.nextBuf), EspOk, NoReply))
            && (|data| > 0 && !IsBinary(data) && IsPing(data) ==> o == Outcome(Free(st1, st.nextBuf), EspOk, Pong))
            && (|data| > 0 && !IsBinary(data) && !IsPing(data) ==>
                  o == Outcome(Free(CountMessage(PublishConfig(st1, json)), st.nextBuf), EspOk, NoReply))
  {
  }

  /**
   * The classification loop of ws_handler: a message is binary when one of its
   * first min(len, 16) bytes is a control byte other than newline, carriage
   * return and tab.
   */
  method IsBinaryMessage(buf: array<byte>, len: nat) returns (isBinary: bool)
    requires len <= buf.Length
    ensures isBinary == IsBinary(buf[..len])
  {
    var limit := Min(len, ClassifyPrefix);
    isBinary := false;
    var i := 0;
    while i < limit
      invariant 0 <= i <= limit
      invariant forall k :: 0 <= k < i ==> !IsControlByte(buf[k])
    {
      if buf[i] < 32 && buf[i] != Newline && buf[i] != CarriageReturn && buf[i] != Tab {
        isBinary := true;
        assert buf[..len][i] == buf[i];
        break;
      }
      i := i + 1;
    }
    if !isBinary {
      forall k | 0 <= k < limit ensures !IsControlByte(buf[..len][k]) {
        assert buf[..len][k] == buf[k];
      }
    }
  }

  /**
   * strncmp(buf, "ping", 4) == 0 on a buffer holding the message followed by
   * a NUL is the same as the message starting with "ping": a shorter message
   * meets the NUL, which "ping" does not contain.
   */
  lemma PingCompare(buf: seq<byte>, data: seq<byte>)
    requires |data| < |buf| && buf[..|data|] == data && buf[|data|] == 0
    requires |buf| >= 4
    ensures buf[..4] == PingBytes <==> IsPing(data)
  {
    if |data| >= 4 {
      assert buf[..4] == data[..4];
    }
  }
}
