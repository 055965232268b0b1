/**
 * What the two MIPI-DSI panel drivers share: the MIPI Display Command Set
 * codes they send, the panel IO handle they send them through, the
 * "send in order, stop at the first failure" discipline of their init
 * sequences, and the shadow registers they keep of MADCTL and COLMOD.
 *
 * esp_lcd_panel_io_tx_param is modelled as appending (cmd, params) to the
 * handle's trace; which transmissions on a handle fail is fixed when the
 * handle is made.
 */
module PanelIo {
  import opened EspCommon

  // MIPI DCS command codes (MIPI Display Command Set, command list)
  const SoftReset := 0x01
  const ExitSleepMode := 0x11
  const ExitInvertMode := 0x20
  const EnterInvertMode := 0x21
  const SetDisplayOff := 0x28
  const SetDisplayOn := 0x29
  /** set_address_mode, "MADCTL". */
  const SetAddressMode := 0x36
  /** set_pixel_format, "COLMOD". */
  const SetPixelFormat := 0x3A
  /** The BGR bit of set_address_mode. */
  const BgrBit: bv8 := 0x08

  /** One transmission: a command and its parameter bytes. */
  datatype Tx = Tx(cmd: int, params: seq<bv8>)

  /**
   * One row of an init table: {cmd, data, data_bytes, delay_ms}. `data` holds
   * exactly the data_bytes bytes that are sent.
   */
  datatype InitCmd = InitCmd(cmd: int, data: seq<bv8>, delayMs: nat)

  /** The transmissions an init table asks for, in table order: row i is sent as its command with its data bytes. */
  function Txs(cmds: seq<InitCmd>): (r: seq<Tx>)
    ensures |r| == |cmds|
  {
    seq(|cmds|, i requires 0 <= i < |cmds| => Tx(cmds[i].cmd, cmds[i].data))
  }

  /** The transmissions of the first i + 1 rows extend those of the first i by row i. */
  lemma TxsStep(cmds: seq<InitCmd>, i: nat)
    requires i < |cmds|
    ensures Txs(cmds)[..i + 1] == Txs(cmds)[..i] + [Tx(cmds[i].cmd, cmds[i].data)]
  {
    assert Txs(cmds)[..i + 1] == Txs(cmds)[..i] + [Txs(cmds)[i]];
  }

  /** The colour order of esp_lcd_panel_dev_config_t. */
  datatype ColorOrder = Rgb | Bgr | OtherOrder(code: int)

  /** The MADCTL value a fresh (zeroed) panel gets for a colour order, or None when unsupported. */
  function ColorOrderBits(order: ColorOrder): (r: Option<bv8>)
    ensures order.Rgb? <==> r == Some(0)
    ensures order.Bgr? <==> r == Some(BgrBit)
    ensures order.OtherOrder? <==> r.None?
  {
    match order
    case Rgb => Some(0)
    case Bgr => Some(0 | BgrBit)
    case OtherOrder(_) => None
  }

  /**
   * esp_lcd_panel_dev_config_t as the drivers read it; the vendor config is
   * driver specific.
   */
  datatype DevConfig<V> = DevConfig(
    resetGpio: int,
    colorSpace: ColorOrder,
    bitsPerPixel: int,
    resetActiveHigh: bool,
    vendor: Option<V>)

  /** The results of the foreign calls a driver makes while creating and initialising a panel. */
  datatype Platform = Platform(
    callocOk: bool,
    gpioConfigErr: EspErr,
    newDpiErr: EspErr,
    dpiInitErr: EspErr)

  /**
   * What decides the result of each transmission through a possibly null
   * handle: a null handle rejects every one; a handle fails exactly the
   * transmissions in its failure map, with the error recorded there.
   */
  datatype Link = NoHandle | Handle(failures: map<nat, EspErr>)

  /** The result of the n-th transmission over a link. */
  function ResultOf(link: Link, n: nat): EspErr
  {
    match link
    case NoHandle => ErrInvalidArg
    case Handle(failures) => if n in failures then failures[n] else EspOk
  }

  /** A panel IO handle: the transmissions made on it and which of them fail. */
  class PanelIo {
    /** The failing transmissions, by position on this handle, with their errors. */
    const failures: map<nat, EspErr>
    var sent: seq<Tx>

    constructor (failures: map<nat, EspErr>)
      ensures this.failures == failures && sent == []
    {
      this.failures := failures;
      sent := [];
    }
  }

  function LinkOf(io: PanelIo?): (r: Link)
    ensures r.NoHandle? <==> io == null
  {
    if io == null then NoHandle else Handle(io.failures)
  }

  function SentCount(io: PanelIo?): nat
    reads io
  {
    if io == null then 0 else |io.sent|
  }

  /** esp_lcd_panel_io_tx_param: a null handle is rejected, otherwise the transmission is recorded. */
  method TxParam(io: PanelIo?, cmd: int, params: seq<bv8>) returns (err: EspErr)
    modifies io
    ensures err == ResultOf(LinkOf(io), old(SentCount(io)))
    ensures io != null ==> io.sent == old(io.sent) + [Tx(cmd, params)]
  {
    if io == null {
      return ErrInvalidArg;
    }
    err := if |io.sent| in io.failures then io.failures[|io.sent|] else EspOk;
    io.sent := io.sent + [Tx(cmd, params)];
  }

  // ---------------------------------------------------------------------------
  // Sending a sequence of commands with early return
  // ---------------------------------------------------------------------------

  /** How many transmissions a sequence of sends made, and its result. */
  datatype Sent = Sent(count: nat, err: EspErr)

  /**
   * Sending a plan of `len` transmissions in order as ESP_RETURN_ON_ERROR
   * does: the first failing transmission is the last one made and its error
   * is the result. The n-th transmission over the link has result
   * ResultOf(link, n), so only the plan's length matters, not its contents.
   */
  function Transmit(link: Link, n: nat, len: nat): (r: Sent)
    ensures r.count <= len
    ensures len > 0 ==> r.count >= 1
    decreases len
  {
    if len == 0 then Sent(0, EspOk)
    else if ResultOf(link, n) != EspOk then Sent(1, ResultOf(link, n))
    else
      var rest := Transmit(link, n + 1, len - 1);
      Sent(rest.count + 1, rest.err)
  }

  /**
   * What Transmit means: every transmission before the last one made
   * succeeded; the result is success exactly when the whole plan was sent and
   * the last send succeeded; otherwise it is the last send's error.
   */
  lemma {:induction false} TransmitStops(link: Link, n: nat, len: nat)
    ensures var r := Transmit(link, n, len);
            && (forall m :: n <= m < n + r.count - 1 ==> ResultOf(link, m) == EspOk)
            && (r.err == EspOk <==> r.count == len && (r.count == 0 || ResultOf(link, n + r.count - 1) == EspOk))
            && (r.err != EspOk ==> r.err == ResultOf(link, n + r.count - 1))
    decreases len
  {
    if len > 0 && ResultOf(link, n) == EspOk {
      TransmitStops(link, n + 1, len - 1);
    }
  }

  /**
   * Sending a plan a + b: when a stops at a failure, b is never started;
   * otherwise b is sent as a plan of its own, |a| positions later.
   */
  lemma {:induction false} TransmitAppend(link: Link, n: nat, a: nat, b: nat)
    ensures var ta := Transmit(link, n, a);
            var tb := Transmit(link, n + a, b);
            Transmit(link, n, a + b) == if ta.err != EspOk then ta else Sent(a + tb.count, tb.err)
    decreases a
  {
    if a > 0 && ResultOf(link, n) == EspOk {
      TransmitAppend(link, n + 1, a - 1, b);
    }
  }

  /** The trace after all of a and the first k transmissions of b. */
  lemma TraceAppend(sent: seq<Tx>, a: seq<Tx>, b: seq<Tx>, k: nat)
    requires k <= |b|
    ensures sent + a + b[..k] == sent + (a + b)[..|a| + k]
  {
    assert (a + b)[..|a| + k] == a + b[..k];
  }

  /** A plan that stops within a sent only a prefix of a. */
  lemma PrefixOfAppend(a: seq<Tx>, b: seq<Tx>, k: nat)
    requires k <= |a|
    ensures (a + b)[..k] == a[..k]
  {
  }

  /** The trace after x and the first k transmissions of rest. */
  lemma TraceAfterCons(sent: seq<Tx>, x: Tx, rest: seq<Tx>, k: nat)
    requires k <= |rest|
    ensures sent + [x] + rest[..k] == sent + ([x] + rest)[..k + 1]
  {
    assert ([x] + rest)[..k + 1] == [x] + rest[..k];
  }

  /** When the sends before position k succeed and the one at k fails, k + 1 transmissions are made and k's error is the result. */
  lemma {:induction false} TransmitFailsAt(link: Link, n: nat, len: nat, k: nat)
    requires k < len
    requires forall m :: n <= m < n + k ==> ResultOf(link, m) == EspOk
    requires ResultOf(link, n + k) != EspOk
    ensures Transmit(link, n, len) == Sent(k + 1, ResultOf(link, n + k))
    decreases k
  {
    if k > 0 {
      TransmitFailsAt(link, n + 1, len - 1, k - 1);
    }
  }

  /** When every send succeeds, the whole plan is transmitted. */
  lemma {:induction false} TransmitSucceeds(link: Link, n: nat, len: nat)
    requires forall m :: n <= m < n + len ==> ResultOf(link, m) == EspOk
    ensures Transmit(link, n, len) == Sent(len, EspOk)
    decreases len
  {
    if len > 0 {
      TransmitSucceeds(link, n + 1, len - 1);
    }
  }

  /** The transmissions of a plan are all made iff every one succeeds. */
  lemma {:induction false} TransmitAllIff(link: Link, n: nat, len: nat)
    ensures Transmit(link, n, len).err == EspOk <==> forall m :: n <= m < n + len ==> ResultOf(link, m) == EspOk
    decreases len
  {
    if len > 0 && ResultOf(link, n) == EspOk {
      TransmitAllIff(link, n + 1, len - 1);
    }
  }

  // ---------------------------------------------------------------------------
  // Shadow registers
  // ---------------------------------------------------------------------------

  /** Whether an init-table row overwrites the shadow of register `reg`: it has data and that command. */
  predicate Writes(c: InitCmd, reg: int)
  {
    |c.data| > 0 && c.cmd == reg
  }

  /**
   * The shadow of register `reg` after the init loop has gone through `cmds`,
   * starting from v: each row with data and command `reg` stores data[0].
   */
  function ShadowAfter(reg: int, v: bv8, cmds: seq<InitCmd>): bv8
    decreases |cmds|
  {
    if cmds == [] then v
    else
      var before := ShadowAfter(reg, v, cmds[..|cmds| - 1]);
      var c := cmds[|cmds| - 1];
      if Writes(c, reg) then c.data[0] else before
  }

  /** Last write wins: after the rows, the shadow holds data[0] of the last row that writes it. */
  lemma {:induction false} ShadowLastWrite(reg: int, v: bv8, cmds: seq<InitCmd>, j: nat)
    requires j < |cmds| && Writes(cmds[j], reg)
    requires forall k :: j < k < |cmds| ==> !Writes(cmds[k], reg)
    ensures ShadowAfter(reg, v, cmds) == cmds[j].data[0]
    decreases |cmds|
  {
    if j < |cmds| - 1 {
      var init := cmds[..|cmds| - 1];
      assert forall k :: j < k < |init| ==> init[k] == cmds[k];
      ShadowLastWrite(reg, v, init, j);
    }
  }

  /** Without a row that writes the register, its shadow keeps its value. */
  lemma {:induction false} ShadowUnwritten(reg: int, v: bv8, cmds: seq<InitCmd>)
    requires forall k :: 0 <= k < |cmds| ==> !Writes(cmds[k], reg)
    ensures ShadowAfter(reg, v, cmds) == v
    decreases |cmds|
  {
    if cmds != [] {
      var init := cmds[..|cmds| - 1];
      assert forall k :: 0 <= k < |init| ==> init[k] == cmds[k];
      ShadowUnwritten(reg, v, init);
    }
  }

  /** A row with no data bytes never changes a shadow, wherever it stands in the table. */
  lemma {:induction false} ShadowIgnoresEmptyRow(reg: int, v: bv8, a: seq<InitCmd>, c: InitCmd, b: seq<InitCmd>)
    requires c.data == []
    ensures ShadowAfter(reg, v, a + [c] + b) == ShadowAfter(reg, v, a + b)
    decreases |b|
  {
    if b == [] {
      assert (a + [c] + b)[..|a + [c] + b| - 1] == a;
      assert a + b == a;
    } else {
      var b' := b[..|b| - 1];
      assert (a + [c] + b)[..|a + [c] + b| - 1] == a + [c] + b';
      assert (a + b)[..|a + b| - 1] == a + b';
      ShadowIgnoresEmptyRow(reg, v, a, c, b');
    }
  }

  /** One more row of the init loop. */
  lemma ShadowStep(reg: int, v: bv8, cmds: seq<InitCmd>, i: nat)
    requires i < |cmds|
    ensures ShadowAfter(reg, v, cmds[..i + 1]) ==
              if Writes(cmds[i], reg) then cmds[i].data[0] else ShadowAfter(reg, v, cmds[..i])
  {
    assert cmds[..i + 1][..i] == cmds[..i];
  }
}
