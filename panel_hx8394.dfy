/**
 * The HX8394 MIPI-DSI panel driver (esp_lcd_hx8394.c): panel creation with
 * its argument, colour-order and pixel-width checks, and the panel operations
 * that replace those of the underlying DPI panel: init (with the lane-count
 * command), reset, invert_color and disp_on_off.
 */
module PanelHx8394 {
  import opened EspCommon
  import opened PanelIo

  /** HX8394_CMD_DSI_INT0: the vendor command that sets the number of DSI lanes. */
  const DsiInt0 := 0xBA
  const OneLane: bv8 := 0x60
  const TwoLanes: bv8 := 0x61
  const ThreeLanes: bv8 := 0x62
  const FourLanes: bv8 := 0x63

  /**
   * hx8394_vendor_config_t: the custom init table (None for NULL), the lane
   * count of mipi_config, and whether mipi_config.dsi_bus and
   * mipi_config.dpi_config are set.
   */
  datatype VendorConfig = VendorConfig(initCmds: Option<seq<InitCmd>>, laneNum: u8, hasDsiBus: bool, hasDpiConfig: bool)

  /**
   * The COLMOD value for a pixel width, or None when unsupported: the same
   * MIPI DCS pixel-format code (5, 6 or 7 for 16, 18 or 24 bits) in both the
   * DPI and the DBI nibble.
   */
  function ColmodFor(bitsPerPixel: int): (r: Option<bv8>)
    ensures r.Some? <==> bitsPerPixel == 16 || bitsPerPixel == 18 || bitsPerPixel == 24
    ensures r.Some? ==> r.value >> 4 == r.value & 0x0F
    ensures r.Some? ==> (r.value & 0x0F == 5 <==> bitsPerPixel == 16)
    ensures r.Some? ==> (r.value & 0x0F == 6 <==> bitsPerPixel == 18)
    ensures r.Some? ==> (r.value & 0x0F == 7 <==> bitsPerPixel == 24)
  {
    if bitsPerPixel == 16 then Some(0x55)
    else if bitsPerPixel == 18 then Some(0x66)
    else if bitsPerPixel == 24 then Some(0x77)
    else None
  }

  /**
   * The DSI_INT0 parameter for a lane count: 0x60 + (lanes - 1) for one to
   * four lanes, two lanes when the count is 0, and None (invalid) otherwise.
   */
  function LaneCommand(laneNum: u8): (r: Option<bv8>)
    ensures r.Some? <==> laneNum <= 4
    ensures 1 <= laneNum <= 4 ==> r.value as int == OneLane as int + laneNum - 1
    ensures laneNum == 0 ==> r == Some(TwoLanes)
  {
    match laneNum
    case 0 => Some(TwoLanes)
    case 1 => Some(OneLane)
    case 2 => Some(TwoLanes)
    case 3 => Some(ThreeLanes)
    case 4 => Some(FourLanes)
    case _ => None
  }

  /** The arguments are rejected before anything is allocated. */
  predicate ArgsInvalid(ioPresent: bool, config: Option<DevConfig<VendorConfig>>, hasRetPanel: bool)
  {
    || !ioPresent || config.None? || !hasRetPanel
    || config.value.vendor.None?
    || !config.value.vendor.value.hasDpiConfig
    || !config.value.vendor.value.hasDsiBus
  }

  /** The result of esp_lcd_new_panel_hx8394, check by check. */
  function NewError(ioPresent: bool, config: Option<DevConfig<VendorConfig>>, hasRetPanel: bool, platform: Platform): (r: EspErr)
    ensures ArgsInvalid(ioPresent, config, hasRetPanel) ==> r == ErrInvalidArg
    ensures r == EspOk ==>
              && !ArgsInvalid(ioPresent, config, hasRetPanel) && platform.callocOk
              && ColorOrderBits(config.value.colorSpace).Some?
              && ColmodFor(config.value.bitsPerPixel).Some?
              && platform.newDpiErr == EspOk
              && (config.value.resetGpio >= 0 ==> platform.gpioConfigErr == EspOk)
    ensures (&& !ArgsInvalid(ioPresent, config, hasRetPanel) && platform.callocOk
             && (config.value.resetGpio < 0 || platform.gpioConfigErr == EspOk)
             && (config.value.colorSpace.OtherOrder? || ColmodFor(config.value.bitsPerPixel).None?)) ==> r == ErrNotSupported
  {
    if ArgsInvalid(ioPresent, config, hasRetPanel) then ErrInvalidArg
    else if !platform.callocOk then ErrNoMem
    else if config.value.resetGpio >= 0 && platform.gpioConfigErr != EspOk then platform.gpioConfigErr
    else if ColorOrderBits(config.value.colorSpace).None? then ErrNotSupported
    else if ColmodFor(config.value.bitsPerPixel).None? then ErrNotSupported
    else if platform.newDpiErr != EspOk then platform.newDpiErr
    else EspOk
  }

  /** vendor_specific_init_code_default: 21 rows, each with exactly the data bytes it sends. */
  const DefaultInit: seq<InitCmd> := [
    InitCmd(0xB9, [0xFF, 0x83, 0x94], 0),
    InitCmd(0xB1, [0x48, 0x0A, 0x6A, 0x09, 0x33, 0x54, 0x71, 0x71, 0x2E, 0x45], 0),
    InitCmd(0xBA, [0x61, 0x03, 0x68, 0x6B, 0xB2, 0xC0], 0),
    InitCmd(0xB2, [0x00, 0x80, 0x64, 0x0C, 0x06, 0x2F], 0),
    InitCmd(0xB4, [
      0x1C, 0x78, 0x1C, 0x78, 0x1C, 0x78, 0x01, 0x0C, 0x86, 0x75, 0x00, 0x3F,
      0x1C, 0x78, 0x1C, 0x78, 0x1C, 0x78, 0x01, 0x0C, 0x86], 0),
    InitCmd(0xD3, [
      0x00, 0x00, 0x00, 0x00, 0x00, 0x00, 0x08, 0x08, 0x32, 0x10, 0x05, 0x00,
      0x05, 0x32, 0x13, 0xC1, 0x00, 0x01, 0x32, 0x10, 0x08, 0x00, 0x00, 0x37,
      0x03, 0x07, 0x07, 0x37, 0x05, 0x05, 0x37, 0x0C, 0x40], 0),
    InitCmd(0xD5, [
      0x18, 0x18, 0x18, 0x18, 0x22, 0x23, 0x20, 0x21, 0x04, 0x05, 0x06, 0x07,
      0x00, 0x01, 0x02, 0x03, 0x18, 0x18, 0x18, 0x18, 0x18, 0x18, 0x18, 0x18,
      0x18, 0x18, 0x18, 0x18, 0x18, 0x18, 0x18, 0x18, 0x18, 0x18, 0x18, 0x18,
      0x18, 0x18, 0x18, 0x18, 0x19, 0x19, 0x19, 0x19], 0),
    InitCmd(0xD6, [
      0x18, 0x18, 0x19, 0x19, 0x21, 0x20, 0x23, 0x22, 0x03, 0x02, 0x01, 0x00,
      0x07, 0x06, 0x05, 0x04, 0x18, 0x18, 0x18, 0x18, 0x18, 0x18, 0x18, 0x18,
      0x18, 0x18, 0x18, 0x18, 0x18, 0x18, 0x18, 0x18, 0x18, 0x18, 0x18, 0x18,
      0x18, 0x18, 0x18, 0x18, 0x19, 0x19, 0x18, 0x18], 0),
    InitCmd(0xE0, [
      0x07, 0x08, 0x09, 0x0D, 0x10, 0x14, 0x16, 0x13, 0x24, 0x36, 0x48, 0x4A,
      0x58, 0x6F, 0x76, 0x80, 0x97, 0xA5, 0xA8, 0xB5, 0xC6, 0x62, 0x63, 0x68,
      0x6F, 0x72, 0x78, 0x7F, 0x7F, 0x00, 0x02, 0x08, 0x0D, 0x0C, 0x0E, 0x0F,
      0x10, 0x24, 0x36, 0x48, 0x4A, 0x58, 0x6F, 0x78, 0x82, 0x99, 0xA4, 0xA0,
      0xB1, 0xC0, 0x5E, 0x5E, 0x64, 0x6B, 0x6C, 0x73, 0x7F, 0x7F], 0),
    InitCmd(0xCC, [0x0B], 0),
    InitCmd(0xC0, [0x1F, 0x73], 0),
    InitCmd(0xB6, [0x6B, 0x6B], 0),
    InitCmd(0xD4, [0x02], 0),
    InitCmd(0xBD, [0x01], 0),
    InitCmd(0xB1, [0x00], 0),
    InitCmd(0xBD, [0x00], 0),
    InitCmd(0xBF, [0x40, 0x81, 0x50, 0x00, 0x1A, 0xFC, 0x01], 0),
    InitCmd(0x3A, [0x50], 0),
    InitCmd(0x11, [], 200),
    InitCmd(0xB2, [0x00, 0x80, 0x64, 0x0C, 0x06, 0x2F, 0x00, 0x00, 0x00, 0x00, 0xC0, 0x18], 0),
    InitCmd(0x29, [], 80)
  ]

  /** The four sends of init before the table: exit sleep, MADCTL, COLMOD and DSI_INT0 with the lane command. */
  function Preamble(madctl: bv8, colmod: bv8, lane: bv8): (r: seq<Tx>)
    ensures |r| == 4
  {
    [Tx(ExitSleepMode, []), Tx(SetAddressMode, [madctl]), Tx(SetPixelFormat, [colmod]), Tx(DsiInt0, [lane])]
  }

  /** Every transmission init makes when all succeed: the preamble, then the table. */
  function InitPlan(madctl: bv8, colmod: bv8, lane: bv8, cmds: seq<InitCmd>): (r: seq<Tx>)
    ensures |r| == |cmds| + 4
    ensures r[..4] == Preamble(madctl, colmod, lane) && r[4..] == Txs(cmds)
  {
    Preamble(madctl, colmod, lane) + Txs(cmds)
  }

  /** How many table rows the init loop reached when `count` transmissions were made in all. */
  function TableRows(count: nat): nat
  {
    if count <= 4 then 0 else count - 4
  }

  lemma PreambleOutcome(link: Link, n0: nat, count: nat, err: EspErr)
    requires 1 <= count <= 4
    requires forall m :: n0 <= m < n0 + count - 1 ==> ResultOf(link, m) == EspOk
    requires err == ResultOf(link, n0 + count - 1)
    requires count < 4 ==> err != EspOk
    ensures Sent(count, err) == Transmit(link, n0, 4)
  {
    if err != EspOk {
      TransmitFailsAt(link, n0, 4, count - 1);
    } else {
      TransmitSucceeds(link, n0, 4);
    }
  }

  /** The preamble's four sends followed by the table's, as one plan. */
  lemma InitOutcome(link: Link, n0: nat, len: nat, c1: nat, e1: EspErr, c2: nat, e2: EspErr)
    requires Sent(c1, e1) == Transmit(link, n0, 4)
    requires e1 == EspOk ==> c1 == 4 && Sent(c2, e2) == Transmit(link, n0 + 4, len)
    ensures Transmit(link, n0, 4 + len) == if e1 != EspOk then Sent(c1, e1) else Sent(4 + c2, e2)
  {
    TransmitAppend(link, n0, 4, len);
  }

  /**
   * With the default table and every send succeeding, init makes all 25
   * transmissions, leaves the MADCTL shadow as it was and ends with 0x50 in
   * the COLMOD shadow, whatever pixel width the panel was created with.
   */
  lemma DefaultInitOutcome(link: Link, n: nat, madctl: bv8, colmod: bv8, lane: bv8)
    requires forall m :: n <= m < n + 25 ==> ResultOf(link, m) == EspOk
    ensures var plan := InitPlan(madctl, colmod, lane, DefaultInit);
            var rows := DefaultInit[..TableRows(|plan|)];
            && Transmit(link, n, |plan|) == Sent(25, EspOk)
            && ShadowAfter(SetAddressMode, madctl, rows) == madctl
            && ShadowAfter(SetPixelFormat, colmod, rows) == 0x50
  {
    TransmitSucceeds(link, n, 25);
    assert DefaultInit[..21] == DefaultInit;
    ShadowUnwritten(SetAddressMode, madctl, DefaultInit);
    ShadowLastWrite(SetPixelFormat, colmod, DefaultInit, 17);
  }

  /**
   * The default table overrides the lane count: after init's own DSI_INT0
   * with the configured lane command, the table's third row sends DSI_INT0
   * again with the two-lane value, and no later transmission is a DSI_INT0.
   */
  lemma DefaultTableResetsLanes(madctl: bv8, colmod: bv8, lane: bv8)
    ensures var plan := InitPlan(madctl, colmod, lane, DefaultInit);
            && plan[3] == Tx(DsiInt0, [lane])
            && plan[6].cmd == DsiInt0 && plan[6].params[0] == TwoLanes
            && (forall k :: 6 < k < |plan| ==> plan[k].cmd != DsiInt0)
  {
    var plan := InitPlan(madctl, colmod, lane, DefaultInit);
    assert forall k :: 6 < k < |plan| ==> plan[k] == Txs(DefaultInit)[k - 4];
  }

  /**
   * A custom table with every send succeeding: init transmits the whole plan,
   * and the table's COLMOD row decides the shadow (the last row with data and
   * command set_pixel_format wins over the pixel width the panel was created
   * with).
   */
  lemma CustomColmodWins(link: Link, n: nat, madctl: bv8, colmod: bv8, lane: bv8, cmds: seq<InitCmd>, j: nat)
    requires forall m :: n <= m < n + |cmds| + 4 ==> ResultOf(link, m) == EspOk
    requires j < |cmds| && Writes(cmds[j], SetPixelFormat)
    requires forall k :: j < k < |cmds| ==> !Writes(cmds[k], SetPixelFormat)
    ensures var plan := InitPlan(madctl, colmod, lane, cmds);
            && Transmit(link, n, |plan|) == Sent(|plan|, EspOk)
            && ShadowAfter(SetPixelFormat, colmod, cmds[..TableRows(|plan|)]) == cmds[j].data[0]
  {
    TransmitSucceeds(link, n, |cmds| + 4);
    assert cmds[..|cmds|] == cmds;
    ShadowLastWrite(SetPixelFormat, colmod, cmds, j);
  }

  /** hx8394_panel_t, the driver state behind a panel handle. */
  class Hx8394Panel {
    const io: PanelIo?
    const resetGpio: int
    /** flags.reset_level: the level that holds the panel in reset. */
    const resetLevel: bool
    /** The custom init table, None when the vendor config had none. */
    const initCmds: Option<seq<InitCmd>>
    /** vendor_specific_init_default, the table init falls back to. */
    const defaultCmds: seq<InitCmd>
    const laneNum: u8
    /** What the underlying DPI panel's init returns. */
    const dpiInitErr: EspErr
    /** madctl_val: the shadow of set_address_mode. */
    var madctl: bv8
    /** colmod_val: the shadow of set_pixel_format. */
    var colmod: bv8
    /** Levels driven on the reset line, in order. */
    var resetPinLevels: seq<bool>
    /** Whether the DPI panel's own init has been called. */
    var dpiInitCalled: bool

    constructor (io: PanelIo?, resetGpio: int, resetLevel: bool, initCmds: Option<seq<InitCmd>>, laneNum: u8,
                 dpiInitErr: EspErr, madctl: bv8, colmod: bv8)
      ensures this.io == io && this.resetGpio == resetGpio && this.resetLevel == resetLevel
      ensures this.initCmds == initCmds && this.laneNum == laneNum && this.dpiInitErr == dpiInitErr
      ensures this.madctl == madctl && this.colmod == colmod && defaultCmds == DefaultInit
      ensures resetPinLevels == [] && !dpiInitCalled
    {
      this.io := io;
      this.resetGpio := resetGpio;
      this.resetLevel := resetLevel;
      this.initCmds := initCmds;
      defaultCmds := DefaultInit;
      this.laneNum := laneNum;
      this.dpiInitErr := dpiInitErr;
      this.madctl := madctl;
      this.colmod := colmod;
      resetPinLevels := [];
      dpiInitCalled := false;
    }

    /** The table init sends: the custom one when present, else the default. */
    function Commands(): seq<InitCmd>
    {
      if initCmds.Some? then initCmds.value else defaultCmds
    }

    /**
     * esp_lcd_new_panel_hx8394. On success the panel keeps the handle, the
     * init table, the lane count, the reset line, the colour-order bits in its
     * MADCTL shadow and the pixel format in its COLMOD shadow; on any failure
     * no panel is returned.
     */
    static method New(io: PanelIo?, config: Option<DevConfig<VendorConfig>>, hasRetPanel: bool, platform: Platform)
      returns (err: EspErr, panel: Hx8394Panel?)
      ensures err == NewError(io != null, config, hasRetPanel, platform)
      ensures (panel != null) == (err == EspOk)
      ensures panel != null ==>
                && config.Some? && config.value.vendor.Some?
                && fresh(panel) && panel.io == io
                && panel.madctl == ColorOrderBits(config.value.colorSpace).value
                && panel.colmod == ColmodFor(config.value.bitsPerPixel).value
                && panel.initCmds == config.value.vendor.value.initCmds
                && panel.laneNum == config.value.vendor.value.laneNum
                && panel.resetGpio == config.value.resetGpio
                && panel.resetLevel == config.value.resetActiveHigh
                && panel.dpiInitErr == platform.dpiInitErr
                && panel.defaultCmds == DefaultInit
                && panel.resetPinLevels == [] && !panel.dpiInitCalled
    {
      if io == null || config.None? || !hasRetPanel {
        return ErrInvalidArg, null;
      }
      var dev := config.value;
      if dev.vendor.None? || !dev.vendor.value.hasDpiConfig || !dev.vendor.value.hasDsiBus {
        return ErrInvalidArg, null;
      }
      if !platform.callocOk {
        return ErrNoMem, null;
      }
      var madctl: bv8, colmod: bv8 := 0, 0;
      if dev.resetGpio >= 0 && platform.gpioConfigErr != EspOk {
        return platform.gpioConfigErr, null;
      }
      match dev.colorSpace {
        case Rgb => madctl := 0;
        case Bgr => madctl := madctl | BgrBit;
        case OtherOrder(_) => return ErrNotSupported, null;
      }
      if dev.bitsPerPixel == 16 {
        colmod := 0x55;
      } else if dev.bitsPerPixel == 18 {
        colmod := 0x66;
      } else if dev.bitsPerPixel == 24 {
        colmod := 0x77;
      } else {
        return ErrNotSupported, null;
      }
      if platform.newDpiErr != EspOk {
        return platform.newDpiErr, null;
      }
      panel := new Hx8394Panel(io, dev.resetGpio, dev.resetActiveHigh, dev.vendor.value.initCmds,
                               dev.vendor.value.laneNum, platform.dpiInitErr, madctl, colmod);
      err := EspOk;
    }

    /**
     * panel_hx8394_init: an unsupported lane count is rejected before anything
     * is sent; otherwise the preamble, the table and the DPI panel's init, the
     * first failed send ending init with its error.
     */
    method Init() returns (err: EspErr)
      modifies this, io
      ensures LaneCommand(laneNum).None? ==>
                && err == ErrInvalidArg && (io != null ==> io.sent == old(io.sent))
                && madctl == old(madctl) && colmod == old(colmod) && dpiInitCalled == old(dpiInitCalled)
      ensures LaneCommand(laneNum).Some? ==>
                var plan := InitPlan(old(madctl), old(colmod), LaneCommand(laneNum).value, Commands());
                var t := Transmit(LinkOf(io), old(SentCount(io)), |plan|);
                var rows := Commands()[..TableRows(t.count)];
                && (io != null ==> io.sent == old(io.sent) + plan[..t.count])
                && madctl == ShadowAfter(SetAddressMode, old(madctl), rows)
                && colmod == ShadowAfter(SetPixelFormat, old(colmod), rows)
                && err == (if t.err == EspOk then dpiInitErr else t.err)
                && dpiInitCalled == (old(dpiInitCalled) || t.err == EspOk)
      ensures resetPinLevels == old(resetPinLevels)
    {
      var lane := LaneCommand(laneNum);
      if lane.None? {
        err := ErrInvalidArg;
      } else {
        err := SendAll(lane.value);
      }
    }

    /**
     * The part of panel_hx8394_init after the lane switch: the preamble with
     * lane command `lane`, then the table, then the DPI panel's init.
     */
    method SendAll(lane: bv8) returns (err: EspErr)
      modifies this, io
      ensures var plan := InitPlan(old(madctl), old(colmod), lane, Commands());
              var t := Transmit(LinkOf(io), old(SentCount(io)), |plan|);
              var rows := Commands()[..TableRows(t.count)];
              && (io != null ==> io.sent == old(io.sent) + plan[..t.count])
              && madctl == ShadowAfter(SetAddressMode, old(madctl), rows)
              && colmod == ShadowAfter(SetPixelFormat, old(colmod), rows)
              && err == (if t.err == EspOk then dpiInitErr else t.err)
              && dpiInitCalled == (old(dpiInitCalled) || t.err == EspOk)
              && resetPinLevels == old(resetPinLevels)
    {
      ghost var sent0 := if io == null then [] else io.sent;
      ghost var link, n0 := LinkOf(io), SentCount(io);
      var cmds := Commands();
      ghost var pre := Preamble(madctl, colmod, lane);
      var preambleErr, tableErr := EspOk, EspOk;
      ghost var preambleCount, tableCount := 0, 0;
      preambleErr, preambleCount := SendPreamble(lane);
      PrefixOfAppend(pre, Txs(cmds), preambleCount);
      if preambleErr == EspOk {
        assert pre[..preambleCount] == pre;
        tableErr, tableCount := SendTable(cmds);
        TraceAppend(sent0, pre, Txs(cmds), tableCount);
        if tableErr == EspOk {
          dpiInitCalled := true;
        }
      }
      InitOutcome(link, n0, |cmds|, preambleCount, preambleErr, tableCount, tableErr);
      err := if preambleErr != EspOk then preambleErr else if tableErr != EspOk then tableErr else dpiInitErr;
    }

    /** The four sends of panel_hx8394_init before the table, each returning early on failure. */
    method SendPreamble(lane: bv8) returns (err: EspErr, ghost count: nat)
      modifies io
      ensures Sent(count, err) == Transmit(LinkOf(io), old(SentCount(io)), 4)
      ensures io != null ==> io.sent == old(io.sent) + Preamble(madctl, colmod, lane)[..count]
      ensures err == EspOk ==> io != null && count == 4
    {
      ghost var link, n0 := LinkOf(io), SentCount(io);
      ghost var pre := Preamble(madctl, colmod, lane);
      ghost var sent0 := if io == null then [] else io.sent;
      err := TxParam(io, ExitSleepMode, []);
      count := 1;
      if err == EspOk {
        err := TxParam(io, SetAddressMode, [madctl]);
        count := 2;
        if err == EspOk {
          err := TxParam(io, SetPixelFormat, [colmod]);
          count := 3;
          if err == EspOk {
            err := TxParam(io, DsiInt0, [lane]);
            count := 4;
          }
        }
      }
      PreambleOutcome(link, n0, count, err);
      assert io != null ==> io.sent == sent0 + pre[..count];
    }

    /** The shadow update of one table row: a row with data and command MADCTL or COLMOD stores its first byte there. */
    method StoreShadows(c: InitCmd)
      modifies this
      ensures madctl == (if Writes(c, SetAddressMode) then c.data[0] else old(madctl))
      ensures colmod == (if Writes(c, SetPixelFormat) then c.data[0] else old(colmod))
      ensures resetPinLevels == old(resetPinLevels) && dpiInitCalled == old(dpiInitCalled)
    {
      if |c.data| > 0 {
        if c.cmd == SetAddressMode {
          madctl := c.data[0];
        } else if c.cmd == SetPixelFormat {
          colmod := c.data[0];
        }
      }
    }

    /**
     * The table loop of panel_hx8394_init: a row with data and command MADCTL
     * or COLMOD stores its first byte in that shadow, then the row is sent;
     * the first failed send ends the loop. `count` is the number of sends made.
     */
    method SendTable(cmds: seq<InitCmd>) returns (err: EspErr, ghost count: nat)
      requires io != null
      modifies this, io
      ensures Sent(count, err) == Transmit(LinkOf(io), old(|io.sent|), |cmds|)
      ensures io.sent == old(io.sent) + Txs(cmds)[..count]
      ensures madctl == ShadowAfter(SetAddressMode, old(madctl), cmds[..count])
      ensures colmod == ShadowAfter(SetPixelFormat, old(colmod), cmds[..count])
      ensures resetPinLevels == old(resetPinLevels) && dpiInitCalled == old(dpiInitCalled)
    {
      ghost var link, n0, m0, c0 := LinkOf(io), |io.sent|, madctl, colmod;
      ghost var txs := Txs(cmds);
      var i := 0;
      while i < |cmds|
        invariant 0 <= i <= |cmds|
        invariant io.sent == old(io.sent) + txs[..i]
        invariant forall m :: n0 <= m < n0 + i ==> ResultOf(link, m) == EspOk
        invariant madctl == ShadowAfter(SetAddressMode, m0, cmds[..i])
        invariant colmod == ShadowAfter(SetPixelFormat, c0, cmds[..i])
        invariant resetPinLevels == old(resetPinLevels) && dpiInitCalled == old(dpiInitCalled)
      {
        ShadowStep(SetAddressMode, m0, cmds, i);
        ShadowStep(SetPixelFormat, c0, cmds, i);
        StoreShadows(cmds[i]);
        TxsStep(cmds, i);
        err := TxParam(io, cmds[i].cmd, cmds[i].data);
        if err != EspOk {
          TransmitFailsAt(link, n0, |cmds|, i);
          return err, i + 1;
        }
        i := i + 1;
      }
      TransmitSucceeds(link, n0, |cmds|);
      assert cmds[..i] == cmds && txs[..i] == txs;
      return EspOk, i;
    }

    /**
     * panel_hx8394_reset: with a reset line, drive it active then inactive;
     * otherwise, with a handle, send soft reset; otherwise do nothing.
     */
    method Reset() returns (err: EspErr)
      modifies this, io
      ensures resetGpio >= 0 ==>
                && err == EspOk
                && resetPinLevels == old(resetPinLevels) + [resetLevel, !resetLevel]
                && (io != null ==> io.sent == old(io.sent))
      ensures resetGpio < 0 && io != null ==>
                && io.sent == old(io.sent) + [Tx(SoftReset, [])]
                && err == ResultOf(LinkOf(io), old(|io.sent|))
                && resetPinLevels == old(resetPinLevels)
      ensures resetGpio < 0 && io == null ==> err == EspOk && resetPinLevels == old(resetPinLevels)
      ensures madctl == old(madctl) && colmod == old(colmod) && dpiInitCalled == old(dpiInitCalled)
    {
      if resetGpio >= 0 {
        resetPinLevels := resetPinLevels + [resetLevel];
        resetPinLevels := resetPinLevels + [!resetLevel];
      } else if io != null {
        err := TxParam(io, SoftReset, []);
        if err != EspOk {
          return;
        }
      }
      return EspOk;
    }

    /** panel_hx8394_invert_color: no handle is an invalid state; otherwise enter or exit invert mode. */
    method InvertColor(invert: bool) returns (err: EspErr)
      modifies io
      ensures io == null ==> err == ErrInvalidState
      ensures io != null ==>
                && io.sent == old(io.sent) + [Tx(if invert then EnterInvertMode else ExitInvertMode, [])]
                && err == ResultOf(LinkOf(io), old(|io.sent|))
    {
      if io == null {
        return ErrInvalidState;
      }
      var command := if invert then EnterInvertMode else ExitInvertMode;
      err := TxParam(io, command, []);
    }

    /** panel_hx8394_disp_on_off: display on or off, through the handle as it is (no null check). */
    method DispOnOff(on: bool) returns (err: EspErr)
      modifies io
      ensures io == null ==> err == ErrInvalidArg
      ensures io != null ==>
                && io.sent == old(io.sent) + [Tx(if on then SetDisplayOn else SetDisplayOff, [])]
                && err == ResultOf(LinkOf(io), old(|io.sent|))
    {
      var command := if on then SetDisplayOn else SetDisplayOff;
      err := TxParam(io, command, []);
    }
  }
}
