/**
 * The Waveshare MIPI-DSI panel driver (esp_lcd_dsi.c): panel creation with its
 * argument and colour-order checks, and the panel operations that replace
 * those of the underlying DPI panel: init, reset, mirror, invert_color and
 * disp_on_off.
 */
module PanelDsi {
  import opened EspCommon
  import opened PanelIo

  /** DSI_CMD_GS_BIT: set_address_mode bit for mirroring along x. */
  const GsBit: bv8 := 0x01
  /** DSI_CMD_SS_BIT: set_address_mode bit for mirroring along y. */
  const SsBit: bv8 := 0x02

  /**
   * dsi_vendor_config_t: the custom init table (None for NULL) and whether
   * mipi_config.dsi_bus and mipi_config.dpi_config are set.
   */
  datatype VendorConfig = VendorConfig(initCmds: Option<seq<InitCmd>>, hasDsiBus: bool, hasDpiConfig: bool)

  /** vendor_specific_init_default: exit sleep mode, then display on. */
  const DefaultInit: seq<InitCmd> := [
    InitCmd(ExitSleepMode, [0x00], 120),
    InitCmd(SetDisplayOn, [0x00], 20)
  ]

  /** The arguments are rejected before anything is allocated. */
  predicate ArgsInvalid(ioPresent: bool, config: Option<DevConfig<VendorConfig>>, hasRetPanel: bool)
  {
    || !ioPresent || config.None? || !hasRetPanel
    || config.value.vendor.None?
    || !config.value.vendor.value.hasDpiConfig
    || !config.value.vendor.value.hasDsiBus
  }

  /** The result of esp_lcd_new_panel_dsi, check by check. */
  function NewError(ioPresent: bool, config: Option<DevConfig<VendorConfig>>, hasRetPanel: bool, platform: Platform): (r: EspErr)
    ensures ArgsInvalid(ioPresent, config, hasRetPanel) ==> r == ErrInvalidArg
    ensures r == EspOk ==>
              && !ArgsInvalid(ioPresent, config, hasRetPanel) && platform.callocOk
              && ColorOrderBits(config.value.colorSpace).Some? && platform.newDpiErr == EspOk
              && (config.value.resetGpio >= 0 ==> platform.gpioConfigErr == EspOk)
    ensures (&& !ArgsInvalid(ioPresent, config, hasRetPanel) && platform.callocOk
             && (config.value.resetGpio < 0 || platform.gpioConfigErr == EspOk)
             && config.value.colorSpace.OtherOrder?) ==> r == ErrNotSupported
  {
    if ArgsInvalid(ioPresent, config, hasRetPanel) then ErrInvalidArg
    else if !platform.callocOk then ErrNoMem
    else if config.value.resetGpio >= 0 && platform.gpioConfigErr != EspOk then platform.gpioConfigErr
    else if ColorOrderBits(config.value.colorSpace).None? then ErrNotSupported
    else if platform.newDpiErr != EspOk then platform.newDpiErr
    else EspOk
  }

  /**
   * The set_address_mode value mirror sends: bit 0 follows mirror_x, bit 1
   * follows mirror_y, and every other bit is kept.
   */
  function MirrorValue(v: bv8, mirrorX: bool, mirrorY: bool): (r: bv8)
    ensures (r & GsBit != 0) == mirrorX
    ensures (r & SsBit != 0) == mirrorY
    ensures r & !(GsBit | SsBit) == v & !(GsBit | SsBit)
  {
    var withX := if mirrorX then v | GsBit else v & !GsBit;
    if mirrorY then withX | SsBit else withX & !SsBit
  }

  /** The bit updates of panel_dsi_mirror: set or clear GS for mirror_x, then SS for mirror_y. */
  method SetMirrorBits(v: bv8, mirrorX: bool, mirrorY: bool) returns (value: bv8)
    ensures value == MirrorValue(v, mirrorX, mirrorY)
  {
    value := v;
    if mirrorX {
      value := value | GsBit;
    } else {
      value := value & !GsBit;
    }
    if mirrorY {
      value := value | SsBit;
    } else {
      value := value & !SsBit;
    }
  }

  /** The transmissions init makes when all succeed: MADCTL with the shadow, then the table. */
  function InitPlan(madctl: bv8, cmds: seq<InitCmd>): (r: seq<Tx>)
    ensures |r| == |cmds| + 1 && r[0] == Tx(SetAddressMode, [madctl])
    ensures r[1..] == Txs(cmds)
  {
    [Tx(SetAddressMode, [madctl])] + Txs(cmds)
  }

  /** dsi_panel_t, the driver state behind a panel handle. */
  class DsiPanel {
    const io: PanelIo?
    const resetGpio: int
    /** flags.reset_level: the level that holds the panel in reset. */
    const resetLevel: bool
    /** The custom init table, None when the vendor config had none. */
    const initCmds: Option<seq<InitCmd>>
    /** What the underlying DPI panel's init returns. */
    const dpiInitErr: EspErr
    /** madctl_val: the shadow of set_address_mode. */
    var madctl: bv8
    /** Levels driven on the reset line, in order. */
    var resetPinLevels: seq<bool>
    /** Whether the DPI panel's own init has been called. */
    var dpiInitCalled: bool

    constructor (io: PanelIo?, resetGpio: int, resetLevel: bool, initCmds: Option<seq<InitCmd>>,
                 dpiInitErr: EspErr, madctl: bv8)
      ensures this.io == io && this.resetGpio == resetGpio && this.resetLevel == resetLevel
      ensures this.initCmds == initCmds && this.dpiInitErr == dpiInitErr && this.madctl == madctl
      ensures resetPinLevels == [] && !dpiInitCalled
    {
      this.io := io;
      this.resetGpio := resetGpio;
      this.resetLevel := resetLevel;
      this.initCmds := initCmds;
      this.dpiInitErr := dpiInitErr;
      this.madctl := madctl;
      resetPinLevels := [];
      dpiInitCalled := false;
    }

    /** The table init sends: the custom one when present, else the default. */
    function Commands(): seq<InitCmd>
    {
      if initCmds.Some? then initCmds.value else DefaultInit
    }

    /**
     * esp_lcd_new_panel_dsi. On success the panel keeps the handle, the init
     * table, the reset line and the colour-order bits in its MADCTL shadow; on
     * any failure no panel is returned.
     */
    static method New(io: PanelIo?, config: Option<DevConfig<VendorConfig>>, hasRetPanel: bool, platform: Platform)
      returns (err: EspErr, panel: DsiPanel?)
      ensures err == NewError(io != null, config, hasRetPanel, platform)
      ensures (panel != null) == (err == EspOk)
      ensures panel != null ==>
                && config.Some? && config.value.vendor.Some?
                && fresh(panel) && panel.io == io
                && panel.madctl == ColorOrderBits(config.value.colorSpace).value
                && panel.initCmds == config.value.vendor.value.initCmds
                && panel.resetGpio == config.value.resetGpio
                && panel.resetLevel == config.value.resetActiveHigh
                && panel.dpiInitErr == platform.dpiInitErr
                && panel.resetPinLevels == [] && !panel.dpiInitCalled
    {
      if io == null || config.None? || !hasRetPanel {
        return ErrInvalidArg, null;
      }
      var dev := config.value;
      if dev.vendor.None? || !dev.vendor.value.hasDpiConfig || !dev.vendor.value.hasDsiBus {
        return ErrInvalidArg, null;
      }
      if !platform.callocOk {
        return ErrNoMem, null;
      }
      var madctl: bv8 := 0;
      if dev.resetGpio >= 0 && platform.gpioConfigErr != EspOk {
        return platform.gpioConfigErr, null;
      }
      match dev.colorSpace {
        case Rgb => madctl := 0;
        case Bgr => madctl := madctl | BgrBit;
        case OtherOrder(_) => return ErrNotSupported, null;
      }
      if platform.newDpiErr != EspOk {
        return platform.newDpiErr, null;
      }
      panel := new DsiPanel(io, dev.resetGpio, dev.resetActiveHigh, dev.vendor.value.initCmds,
                            platform.dpiInitErr, madctl);
      err := EspOk;
    }

    /**
     * panel_dsi_init: MADCTL with the shadow, then the table in order, then
     * the DPI panel's init; the first failed send ends init with its error.
     */
    method Init() returns (err: EspErr)
      modifies this, io
      ensures var plan := InitPlan(old(madctl), Commands());
              var t := Transmit(LinkOf(io), old(SentCount(io)), |plan|);
              && (io != null ==> io.sent == old(io.sent) + plan[..t.count])
              && madctl == ShadowAfter(SetAddressMode, old(madctl), Commands()[..t.count - 1])
              && err == (if t.err == EspOk then dpiInitErr else t.err)
              && dpiInitCalled == (old(dpiInitCalled) || t.err == EspOk)
              && resetPinLevels == old(resetPinLevels)
    {
      ghost var sent0 := if io == null then [] else io.sent;
      ghost var link, n0, m0 := LinkOf(io), SentCount(io), madctl;
      var cmds := Commands();
      ghost var first := Tx(SetAddressMode, [madctl]);
      TransmitAppend(link, n0, 1, |cmds|);
      err := TxParam(io, SetAddressMode, [madctl]);
      if err != EspOk {
        return;
      }
      ghost var count;
      err, count := SendTable(cmds);
      TraceAfterCons(sent0, first, Txs(cmds), count);
      if err != EspOk {
        return;
      }
      dpiInitCalled := true;
      err := dpiInitErr;
    }

    /**
     * The table loop of panel_dsi_init: a row with data and command MADCTL
     * stores its first byte in the shadow, then the row is sent; the first
     * failed send ends the loop. `count` is the number of sends made.
     */
    method SendTable(cmds: seq<InitCmd>) returns (err: EspErr, ghost count: nat)
      requires io != null
      modifies this, io
      ensures Sent(count, err) == Transmit(LinkOf(io), old(|io.sent|), |cmds|)
      ensures io.sent == old(io.sent) + Txs(cmds)[..count]
      ensures madctl == ShadowAfter(SetAddressMode, old(madctl), cmds[..count])
      ensures resetPinLevels == old(resetPinLevels) && dpiInitCalled == old(dpiInitCalled)
    {
      ghost var link, n0, m0 := LinkOf(io), |io.sent|, madctl;
      ghost var txs := Txs(cmds);
      var i := 0;
      while i < |cmds|
        invariant 0 <= i <= |cmds|
        invariant io.sent == old(io.sent) + txs[..i]
        invariant forall m :: n0 <= m < n0 + i ==> ResultOf(link, m) == EspOk
        invariant madctl == ShadowAfter(SetAddressMode, m0, cmds[..i])
        invariant resetPinLevels == old(resetPinLevels) && dpiInitCalled == old(dpiInitCalled)
      {
        ShadowStep(SetAddressMode, m0, cmds, i);
        if |cmds[i].data| > 0 && cmds[i].cmd == SetAddressMode {
          madctl := cmds[i].data[0];
        }
        TxsStep(cmds, i);
        err := TxParam(io, cmds[i].cmd, cmds[i].data);
        if err != EspOk {
          TransmitFailsAt(link, n0, |cmds|, i);
          return err, i + 1;
        }
        i := i + 1;
      }
      TransmitSucceeds(link, n0, |cmds|);
      assert cmds[..i] == cmds && txs[..i] == txs;
      return EspOk, i;
    }

    /**
     * panel_dsi_reset: with a reset line, drive it inactive, active, inactive;
     * otherwise, with a handle, send soft reset; otherwise do nothing.
     */
    method Reset() returns (err: EspErr)
      modifies this, io
      ensures resetGpio >= 0 ==>
                && err == EspOk
                && resetPinLevels == old(resetPinLevels) + [!resetLevel, resetLevel, !resetLevel]
                && (io != null ==> io.sent == old(io.sent))
      ensures resetGpio < 0 && io != null ==>
                && io.sent == old(io.sent) + [Tx(SoftReset, [])]
                && err == ResultOf(LinkOf(io), old(|io.sent|))
                && resetPinLevels == old(resetPinLevels)
      ensures resetGpio < 0 && io == null ==> err == EspOk && resetPinLevels == old(resetPinLevels)
      ensures madctl == old(madctl) && dpiInitCalled == old(dpiInitCalled)
    {
      if resetGpio >= 0 {
        resetPinLevels := resetPinLevels + [!resetLevel];
        resetPinLevels := resetPinLevels + [resetLevel];
        resetPinLevels := resetPinLevels + [!resetLevel];
      } else if io != null {
        err := TxParam(io, SoftReset, []);
        if err != EspOk {
          return;
        }
      }
      return EspOk;
    }

    /** panel_dsi_invert_color: no handle is an invalid state; otherwise enter or exit invert mode. */
    method InvertColor(invert: bool) returns (err: EspErr)
      modifies io
      ensures io == null ==> err == ErrInvalidState
      ensures io != null ==>
                && io.sent == old(io.sent) + [Tx(if invert then EnterInvertMode else ExitInvertMode, [])]
                && err == ResultOf(LinkOf(io), old(|io.sent|))
    {
      if io == null {
        return ErrInvalidState;
      }
      var command := if invert then EnterInvertMode else ExitInvertMode;
      err := TxParam(io, command, []);
    }

    /**
     * panel_dsi_mirror: no handle is an invalid state; otherwise send the
     * mirrored MADCTL value and keep it as the shadow only if the send succeeds.
     */
    method Mirror(mirrorX: bool, mirrorY: bool) returns (err: EspErr)
      modifies this, io
      ensures io == null ==> err == ErrInvalidState && madctl == old(madctl)
      ensures io != null ==>
                && io.sent == old(io.sent) + [Tx(SetAddressMode, [MirrorValue(old(madctl), mirrorX, mirrorY)])]
                && err == ResultOf(LinkOf(io), old(|io.sent|))
                && madctl == (if err == EspOk then MirrorValue(old(madctl), mirrorX, mirrorY) else old(madctl))
      ensures resetPinLevels == old(resetPinLevels) && dpiInitCalled == old(dpiInitCalled)
    {
      var value := madctl;
      if io == null {
        return ErrInvalidState;
      }
      value := SetMirrorBits(value, mirrorX, mirrorY);
      err := TxParam(io, SetAddressMode, [value]);
      if err != EspOk {
        return;
      }
      madctl := value;
    }

    /** panel_dsi_disp_on_off: display on or off, through the handle as it is (no null check). */
    method DispOnOff(on: bool) returns (err: EspErr)
      modifies io
      ensures io == null ==> err == ErrInvalidArg
      ensures io != null ==>
                && io.sent == old(io.sent) + [Tx(if on then SetDisplayOn else SetDisplayOff, [])]
                && err == ResultOf(LinkOf(io), old(|io.sent|))
    {
      var command := if on then SetDisplayOn else SetDisplayOff;
      err := TxParam(io, command, []);
    }
  }

  // ---------------------------------------------------------------------------
  // Properties
  // ---------------------------------------------------------------------------

  /** Mirroring twice with the same flags is the same as once. */
  lemma MirrorIdempotent(v: bv8, mirrorX: bool, mirrorY: bool)
    ensures MirrorValue(MirrorValue(v, mirrorX, mirrorY), mirrorX, mirrorY) == MirrorValue(v, mirrorX, mirrorY)
  {
  }

  /** Mirroring never changes the colour-order bit. */
  lemma MirrorKeepsColorOrder(v: bv8, mirrorX: bool, mirrorY: bool)
    ensures MirrorValue(v, mirrorX, mirrorY) & BgrBit == v & BgrBit
  {
    assert BgrBit & !(GsBit | SsBit) == BgrBit;
  }

  /**
   * With the default table and every send succeeding, init sends MADCTL, exit
   * sleep mode and display on, leaves the shadow as it was, and returns what
   * the DPI panel's init returns.
   */
  lemma DefaultInitSequence(link: Link, n: nat, madctl: bv8)
    requires forall m :: n <= m < n + 3 ==> ResultOf(link, m) == EspOk
    ensures var plan := InitPlan(madctl, DefaultInit);
            && Transmit(link, n, |plan|) == Sent(3, EspOk)
            && plan == [Tx(SetAddressMode, [madctl]), Tx(ExitSleepMode, [0x00]), Tx(SetDisplayOn, [0x00])]
            && ShadowAfter(SetAddressMode, madctl, DefaultInit[..2]) == madctl
  {
    var plan := InitPlan(madctl, DefaultInit);
    TransmitAllIff(link, n, |plan|);
    assert DefaultInit[..2] == DefaultInit;
    ShadowUnwritten(SetAddressMode, madctl, DefaultInit);
  }

  /**
   * A custom table with every send succeeding: init transmits the whole plan,
   * and the table's MADCTL row decides the shadow (the last row with data and
   * command set_address_mode wins).
   */
  lemma CustomMadctlWins(link: Link, n: nat, madctl: bv8, cmds: seq<InitCmd>, j: nat)
    requires forall m :: n <= m < n + |cmds| + 1 ==> ResultOf(link, m) == EspOk
    requires j < |cmds| && Writes(cmds[j], SetAddressMode)
    requires forall k :: j < k < |cmds| ==> !Writes(cmds[k], SetAddressMode)
    ensures var plan := InitPlan(madctl, cmds);
            && Transmit(link, n, |plan|) == Sent(|plan|, EspOk)
            && ShadowAfter(SetAddressMode, madctl, cmds[..|plan| - 1]) == cmds[j].data[0]
  {
    TransmitSucceeds(link, n, |cmds| + 1);
    assert cmds[..|cmds|] == cmds;
    ShadowLastWrite(SetAddressMode, madctl, cmds, j);
  }
}
