/**
 * Properties of the frame-ingestion pipeline of main/main.c: the ownership
 * invariant of the frame buffers, the bounded non-blocking queue, the text
 * path, and the ordering between configuration messages and payloads.
 */
module IngestProperties {
  import opened EspCommon
  import opened FrameDims
  import opened FrameIngest

  // ---------------------------------------------------------------------------
  // Ownership and capacity
  // ---------------------------------------------------------------------------

  lemma InitialInv()
    ensures Inv(Initial)
  {
  }

  lemma QueuedBufsAppend(q: seq<Item>, item: Item)
    ensures QueuedBufs(q + [item]) == QueuedBufs(q) + (if item.Payload? then {item.buf} else {})
  {
    var q' := q + [item];
    assert forall i :: 0 <= i < |q| ==> q'[i] == q[i];
    assert q'[|q|] == item;
  }

  lemma QueuedBufsTail(q: seq<Item>)
    requires q != [] && DistinctBufs(q)
    ensures QueuedBufs(q[1..]) == QueuedBufs(q) - (if q[0].Payload? then {q[0].buf} else {})
  {
    var t := q[1..];
    assert forall i :: 0 <= i < |t| ==> t[i] == q[i + 1];
    forall x | x in QueuedBufs(q) && !(q[0].Payload? && x == q[0].buf)
      ensures x in QueuedBufs(t)
    {
      var i :| 0 <= i < |q| && q[i].Payload? && q[i].buf == x;
      assert i > 0;
      assert t[i - 1] == q[i];
    }
  }

  /**
   * The invariant while the handler owns its receive buffer rx: rx is live but
   * belongs to no queued payload; everything else is as in Inv.
   */
  ghost predicate Holding(st: State, rx: nat)
  {
    && |st.queue| <= QueueCapacity
    && st.live == QueuedBufs(st.queue) + {rx}
    && rx !in QueuedBufs(st.queue)
    && DistinctBufs(st.queue)
    && Distinct(st.freed)
    && (forall id :: id in st.live ==> id < st.nextBuf)
    && (forall id :: id in st.freed ==> id < st.nextBuf && id !in st.live)
    && (forall id :: 0 <= id < st.nextBuf ==> id in st.live || id in st.freed)
    && (forall i :: 0 <= i < |st.queue| && st.queue[i].Payload? ==> |st.queue[i].data| > 0)
  }

  lemma AllocateRx(st: State)
    requires Inv(st)
    ensures Holding(Malloc(st), st.nextBuf)
  {
  }

  lemma ReleaseRx(st: State, rx: nat)
    requires Holding(st, rx)
    ensures Inv(Free(st, rx))
  {
    var st' := Free(st, rx);
    forall i, j | 0 <= i < j < |st'.freed| ensures st'.freed[i] != st'.freed[j] {
      if j == |st.freed| {
        assert st'.freed[i] == st.freed[i];
      } else {
        assert st'.freed[i] == st.freed[i] && st'.freed[j] == st.freed[j];
      }
    }
  }

  lemma PublishFrameKeepsHolding(st: State, rx: nat, data: seq<byte>, copyOk: bool)
    requires Holding(st, rx) && 0 < |data| <= RecvLimit
    ensures Holding(PublishFrame(st, data, copyOk), rx)
  {
    if copyOk {
      var d := Resolve(st.session, |data|);
      var id := st.nextBuf;
      var item := Payload(id, data, d.width, d.height);
      if |st.queue| < QueueCapacity {
        QueuedBufsAppend(st.queue, item);
        var q := st.queue + [item];
        assert forall i :: 0 <= i < |st.queue| ==> q[i] == st.queue[i];
      } else {
        var st' := PublishFrame(st, data, copyOk);
        assert st'.freed == st.freed + [id];
        forall i, j | 0 <= i < j < |st'.freed| ensures st'.freed[i] != st'.freed[j] {
          if j == |st.freed| {
            assert st'.freed[i] == st.freed[i];
          } else {
            assert st'.freed[i] == st.freed[i] && st'.freed[j] == st.freed[j];
          }
        }
      }
    }
  }

  lemma PublishConfigKeepsHolding(st: State, rx: nat, json: Option<JsonDoc>)
    requires Holding(st, rx)
    requires json.Some? ==> json.value.typeItem != NonStringType
    ensures Holding(PublishConfig(st, json), rx)
  {
    match ConfigRequest(json)
    case None =>
    case Some(item) =>
      if |st.queue| < QueueCapacity {
        QueuedBufsAppend(st.queue, item);
        var q := st.queue + [item];
        assert forall i :: 0 <= i < |st.queue| ==> q[i] == st.queue[i];
      }
  }

  /**
   * The handler keeps the ownership invariant: the receive buffer is freed on
   * every path, a payload copy is either queued or freed at once, and the queue
   * never exceeds its capacity.
   */
  lemma HandlePreservesInv(st: State, req: Request, alloc: Alloc)
    requires Inv(st) && HandlerDefined(req)
    ensures Inv(Handle(st, req, alloc).state)
  {
    match req
    case Get =>
    case Post(data, json) =>
      if alloc.rxBufferOk {
        var rx := st.nextBuf;
        var st1 := Malloc(st);
        AllocateRx(st);
        if |data| == 0 || (!IsBinary(data) && IsPing(data)) {
          ReleaseRx(st1, rx);
        } else if IsBinary(data) {
          PublishFrameKeepsHolding(st1, rx, data, alloc.frameCopyOk);
          ReleaseRx(CountMessage(PublishFrame(st1, data, alloc.frameCopyOk)), rx);
        } else {
          PublishConfigKeepsHolding(st1, rx, json);
          ReleaseRx(CountMessage(PublishConfig(st1, json)), rx);
        }
      }
  }

  /** The consumer keeps the ownership invariant: a dequeued payload's buffer is freed exactly here. */
  lemma ConsumePreservesInv(st: State)
    requires Inv(st)
    ensures Inv(Consume(st).state)
  {
    if st.queue != [] {
      QueuedBufsTail(st.queue);
      var rest := st.queue[1..];
      assert forall i :: 0 <= i < |rest| ==> rest[i] == st.queue[i + 1];
      if st.queue[0].Payload? {
        assert st.queue[0].buf in st.live;
        assert st.queue[0].buf !in st.freed;
      }
    }
  }

  /** Every interleaving of handler and consumer steps keeps the invariant; in particular the queue never exceeds 5 items. */
  lemma {:induction false} RunPreservesInv(st: State, evs: seq<Event>)
    requires Inv(st)
    requires forall i :: 0 <= i < |evs| ==> EventDefined(evs[i])
    ensures Inv(Run(st, evs))
    ensures |Run(st, evs).queue| <= QueueCapacity
    decreases |evs|
  {
    if evs != [] {
      match evs[0] {
        case HandlerEvent(req, alloc) => HandlePreservesInv(st, req, alloc);
        case ConsumerEvent => ConsumePreservesInv(st);
      }
      RunPreservesInv(Step(st, evs[0]), evs[1..]);
    }
  }

  /**
   * Draining the queue frees every buffer ever allocated exactly once: afterwards
   * nothing is live and every buffer name below nextBuf occurs once in the free log.
   */
  lemma {:induction false} DrainFreesEverything(st: State)
    requires Inv(st)
    ensures var end := Drain(st).0;
            && end.live == {}
            && Distinct(end.freed)
            && end.nextBuf == st.nextBuf
            && forall id :: 0 <= id < end.nextBuf ==> id in end.freed
    decreases |st.queue|
  {
    if st.queue == [] {
      assert QueuedBufs(st.queue) == {};
    } else {
      ConsumePreservesInv(st);
      DrainFreesEverything(Consume(st).state);
    }
  }

  /** A send to a full queue fails without waiting and leaves the queue as it was; the copy is freed at once, then the receive buffer. */
  lemma FullQueueDropsFrame(st: State, data: seq<byte>)
    requires |st.queue| == QueueCapacity
    requires 0 < |data| <= RecvLimit && IsBinary(data)
    ensures var o := Handle(st, Post(data, None), Alloc(true, true));
            && o.state.queue == st.queue
            && o.state.live == st.live - {st.nextBuf, st.nextBuf + 1}
            && o.state.freed == st.freed + [st.nextBuf + 1, st.nextBuf]
            && o.err == EspOk
  {
  }

  // ---------------------------------------------------------------------------
  // Text path
  // ---------------------------------------------------------------------------

  /** A ping is answered with pong; nothing is queued, the session and message_count stay, the buffer is freed. */
  lemma PingAnswered(st: State, data: seq<byte>, json: Option<JsonDoc>, alloc: Alloc)
    requires |data| <= RecvLimit && IsPing(data) && !IsBinary(data) && alloc.rxBufferOk
    ensures var o := Handle(st, Post(data, json), alloc);
            && o.reply == Pong && o.err == EspOk
            && o.state.queue == st.queue
            && o.state.session == st.session
            && o.state.messageCount == st.messageCount
            && o.state.freed == st.freed + [st.nextBuf]
  {
  }

  /**
   * A non-ping text message enqueues exactly one item iff it is a blit_config
   * document with both frameWidth and frameHeight and the queue has room; that
   * item is the configuration; message_count advances by one (mod 2^32).
   */
  lemma BlitConfigEnqueues(st: State, data: seq<byte>, json: Option<JsonDoc>, alloc: Alloc)
    requires 0 < |data| <= RecvLimit && !IsBinary(data) && !IsPing(data) && alloc.rxBufferOk
    requires json.Some? ==> json.value.typeItem != NonStringType
    ensures var o := Handle(st, Post(data, json), alloc);
            && (|o.state.queue| == |st.queue| + 1 <==>
                  json.Some? && MessageType(json.value) == BlitConfigType &&
                  json.value.frameWidth.Some? && json.value.frameHeight.Some? &&
                  |st.queue| < QueueCapacity)
            && (|o.state.queue| == |st.queue| + 1 ==>
                  o.state.queue == st.queue + [Config(json.value.frameWidth.value, json.value.frameHeight.value)])
            && o.state.messageCount == (st.messageCount + 1) % 0x1_0000_0000
  {
  }

  // ---------------------------------------------------------------------------
  // Ordering between configuration and payloads
  // ---------------------------------------------------------------------------

  /** Handler steps alone never change the session: only the consumer applies configuration. */
  lemma {:induction false} ProducerStepsKeepSession(st: State, evs: seq<Event>)
    requires forall i :: 0 <= i < |evs| ==> EventDefined(evs[i]) && evs[i].HandlerEvent?
    ensures Run(st, evs).session == st.session
    decreases |evs|
  {
    if evs != [] {
      ProducerStepsKeepSession(Step(st, evs[0]), evs[1..]);
    }
  }

  /**
   * Dequeuing a config sets the session to it and draws nothing; a payload of
   * exactly width * height * 2 bytes then resolves to the configured dimensions.
   */
  lemma ConfigAppliedOnDequeue(st: State, w: u16, h: u16)
    requires st.queue != [] && st.queue[0] == Config(w, h)
    ensures Consume(st).state.session == Session(w, h, true)
    ensures Consume(st).drawn == None
    ensures 0 < w && 0 < h && w * h * 2 <= RecvLimit ==>
              Resolve(Consume(st).state.session, w * h * 2) == Dims(w, h)
  {
  }

  /** Consuming the same config twice leaves the session as consuming it once. */
  lemma ConfigIdempotent(st: State, w: u16, h: u16)
    requires |st.queue| >= 2 && st.queue[0] == Config(w, h) && st.queue[1] == Config(w, h)
    ensures Consume(Consume(st).state).state.session == Consume(st).state.session
  {
  }

  /**
   * Draining applies the queued configs in order (the last one wins) and draws
   * the queued payloads in queue order.
   */
  lemma {:induction false} DrainInOrder(st: State)
    ensures Drain(st).0.queue == []
    ensures Drain(st).0.session == LastConfig(st.session, st.queue)
    ensures Drain(st).1 == PayloadFrames(st.queue)
    decreases |st.queue|
  {
    if st.queue != [] {
      var c := Consume(st);
      assert c.state.queue == st.queue[1..];
      DrainInOrder(c.state);
    }
  }

  /**
   * A configuration sent before a payload does not reach that payload while it
   * is still queued: from the start state, a blit_config for 120x100 followed by
   * a 24000-byte frame (exactly 120x100 in RGB565) queues the frame as 100x120,
   * the detector's guess. Once the consumer has applied the config, the same
   * frame resolves to 120x100.
   */
  lemma QueuedConfigNotYetApplied(text: seq<byte>, frame: seq<byte>)
    requires 0 < |text| <= RecvLimit && !IsBinary(text) && !IsPing(text)
    requires |frame| == 24000 && IsBinary(frame)
    ensures var cfg := Some(JsonDoc(StringType(BlitConfigType), Some(120), Some(100)));
            var s1 := Handle(Initial, Post(text, cfg), Alloc(true, true)).state;
            var s2 := Handle(s1, Post(frame, None), Alloc(true, true)).state;
            && s2.queue == [Config(120, 100), Payload(2, frame, 100, 120)]
            && Resolve(Consume(s2).state.session, |frame|) == Dims(120, 100)
  {
    Detect24000();
  }

  /** No byte count the handler can receive reaches a row of common_dimensions (all exceed 65535 bytes). */
  lemma TableUnreachableFromHandler(recvLen: nat)
    requires recvLen <= RecvLimit
    ensures TableMatch(CommonDimensions, recvLen) == None
  {
    CommonDimensionsMiss(recvLen);
  }
}
