/**
 * Types shared by the frame pipeline and the panel drivers: C integer widths,
 * an Option for "pointer or NULL" results, and the esp_err_t codes the core returns.
 */
module EspCommon {

  type u8 = x: int | 0 <= x < 0x100
  type u16 = x: int | 0 <= x < 0x1_0000
  type u32 = x: int | 0 <= x < 0x1_0000_0000

  /** Unsigned 32-bit wrap-around, as C performs it on uint32_t arithmetic. */
  function Wrap32(x: int): (r: u32)
    ensures 0 <= x < 0x1_0000_0000 ==> r == x
    ensures -0x1_0000_0000 <= x < 0 ==> r == x + 0x1_0000_0000
  {
    x % 0x1_0000_0000
  }

  datatype Option<+T> = None | Some(value: T)

  /**
   * The esp_err_t values the core produces or propagates. A failing bus
   * transfer reports some other code, carried unchanged by ErrOther.
   */
  datatype EspErr =
    | EspOk               // ESP_OK
    | ErrNoMem            // ESP_ERR_NO_MEM
    | ErrInvalidArg       // ESP_ERR_INVALID_ARG
    | ErrInvalidState     // ESP_ERR_INVALID_STATE
    | ErrNotSupported     // ESP_ERR_NOT_SUPPORTED
    | ErrOther(code: int) // any other failure reported by a collaborator
}
