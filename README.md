# ESP32-P4 WebSocket frame display: a Dafny model

This project models the core of a firmware for an ESP32-P4 board. The board
receives RGB565 frames over a WebSocket and shows them on a MIPI-DSI panel.
The modelled parts are:

- **Frame ingestion** (`main/main.c`):
  - `detect_frame_dimensions`, which guesses a resolution from a byte count.
    It tries a table of common resolutions first, then a descending factor
    search below the square root of the pixel count.
  - `ws_handler`, the producer. It classifies a message as binary or text,
    picks the frame's dimensions, copies the frame into a buffer and queues
    it without waiting, answers `ping`, and queues `blit_config` requests.
  - One iteration of `frame_display_task`, the consumer. It takes the oldest
    queue item, applies a configuration or draws a frame, and frees the
    frame's buffer.
  - The two FreeRTOS tasks share `frame_queue` (capacity 5), the session
    globals `current_frame_width`, `current_frame_height` and
    `config_received`, and the heap buffers they allocate and free.
- **Two panel drivers**:
  - `esp_lcd_dsi.c`: creation checks, the init sequence with its MADCTL
    shadow register, reset, mirror, invert and display on/off.
  - `esp_lcd_hx8394.c`: creation checks, init, reset, invert and display
    on/off (mirror is not overridden), plus the pixel-format (COLMOD) shadow
    and the DSI lane-count command.

Modules:

- `EspCommon`: C integer widths, `Option`, `esp_err_t` codes.
- `FrameDims`: the detector. `Detect` is its specification; the method
  `DetectFrameDimensions` is the loop-based version proved equal to it.
- `FrameIngest`: the handler and consumer as functions over one shared state
  value, `Handle` and `Consume`. Interleavings of the two tasks are `Run`.
  The buffer-ownership invariant is `Inv`.
- `IngestProperties`: lemmas about those functions.
- `FrameTasks`: class `FrameSystem`, whose fields are the globals. Its
  methods `WsHandler` and `DisplayTaskStep` are proved to compute exactly
  `Handle` and `Consume`, and to keep `Inv`.
- `PanelIo`: the panel IO handle.
  - `esp_lcd_panel_io_tx_param` appends `(cmd, params)` to a trace.
  - A map from send position to error decides which sends fail.
  - `Transmit` gives the outcome of a chain of sends that returns at the
    first error, as `ESP_RETURN_ON_ERROR` does.
  - `ShadowAfter` is the shadow register after an init table.
- `PanelDsi`, `PanelHx8394`: one class per driver struct (`dsi_panel_t`,
  `hx8394_panel_t`). The shadows are fields that the init loop updates in
  place.

What the proofs show about the code:

- **192000 bytes.** A 400×240 frame (192000 bytes) is not in the table. The
  search starts at floor(sqrt(96000)) = 309 and stops at the first divisor,
  300, so it returns 300×320 (`Detect192000`).
- **76800 bytes.** 76800 bytes is not in the table either, but
  `detect_frame_dimensions` succeeds with 192×200 (`Detect76800`); it does
  not report a failure for this count. `ws_handler` never passes it a count
  this large: it reads a message with one `httpd_req_recv` of at most 65535
  bytes, and `Resolve` only covers counts up to that limit.
- **Configured size mismatch.** When the configured size does not match the
  payload, a successful detection wins over the configuration. The
  configured dimensions are used only when detection fails (`Resolve`).
- **Small frames.** Every byte count below 20000 that misses the table fails
  detection (`DetectBelowTwentyThousand`). `sqrt_pixels - 100` wraps on
  `uint32_t`, so the search loop never runs.
- **Unreachable table.** The handler receives at most 65535 bytes, and every
  table row is larger. So no message from the handler ever hits the table
  (`TableUnreachableFromHandler`).
- **Guard that passes under atomic steps.** The chosen dimensions are never
  zero (`Resolve`). So, with the handler's steps atomic as modelled, the
  `display_width && display_height` test at `main/main.c` line 333 always
  passes. In the running program the display task can apply a configuration
  between the handler's reads of the session globals (lines 302-303 and
  305); see "## Left out".
- **Configuration is applied late.** The handler never changes the session.
  A `blit_config` takes effect only when the display task dequeues it
  (`ProducerStepsKeepSession`). A frame queued behind its configuration is
  therefore still sized by the session in force before that configuration
  (by detection, in the scenario of `QueuedConfigNotYetApplied`).
- **HX8394 default table.**
  - It sends DSI_INT0 again with the two-lane value after init's own lane
    command, so the configured lane count is overridden
    (`DefaultTableResetsLanes`).
  - Its COLMOD row leaves 0x50 in the shadow, whatever pixel width the panel
    was created with (`DefaultInitOutcome`).
- **Reset levels.** The HX8394 reset drives the line active then inactive.
  The DSI driver's reset drives it inactive, active, inactive.

## Model

| member | source | states |
|---|---|---|
| EspCommon.Wrap32 | main/main.c:80 | uint32_t arithmetic keeps in-range values and adds 2^32 to values down to -2^32, as `sqrt_pixels - 100` does below 100 |
| FrameDims.FloorSqrt | main/main.c:77 | the result r is the integer square root: r*r <= n < (r+1)*(r+1), the value a truncated double sqrt of a 32-bit count yields |
| FrameDims.FloorSqrtUnique | main/main.c:77 | any r with r*r <= n < (r+1)*(r+1) is FloorSqrt(n), so the root is determined by its bracket |
| FrameDims.TableMatch | main/main.c:66-73 | a hit is the width and height of some row before the terminator whose byte count equals the input |
| FrameDims.SearchFrom | main/main.c:80-91 | a result is the largest acceptable width in (lower, w] (divides the pixel count, both sides <= 2048) with its co-factor; no result means no width in the window is acceptable |
| FrameDims.CofactorAtLeastWidth | main/main.c:81-82 | a divisor w no larger than the square root gives w*h == pixels and w <= h |
| FrameDims.CommonDimensionsBounded | main/main.c:52-61 | every row before the terminator is a resolution with both sides in 1..2048 |
| FrameDims.Detect | main/main.c:63-95 | any detected resolution has both sides in 1..2048 |
| FrameDims.DetectFrameDimensions | main/main.c:63-95 | the table loop and the descending search succeed exactly when Detect does, return Detect's resolution, and leave the caller's width and height untouched on failure |
| FrameDims.TableMatchFirst | main/main.c:66-73 | in a terminated table, the first row whose byte count matches decides the result |
| FrameDims.TableMatchMiss | main/main.c:66-73 | a byte count carried by no row before the terminator misses the table |
| FrameDims.CommonDimensionsMiss | main/main.c:52-61 | a byte count outside the seven listed counts misses common_dimensions |
| FrameDims.DetectTableHit | main/main.c:66-72 | a byte count equal to a row's count detects the first such row's resolution |
| FrameDims.DetectGeometric | main/main.c:76-91 | on a table miss, a detected resolution has w*h == bytes/2, w <= h, both sides <= 2048, w in (s-100, s] for s = floor(sqrt(bytes/2)), and no larger width in that window is acceptable |
| FrameDims.DetectZero | main/main.c:76-94 | a byte count of 0 is not detected |
| FrameDims.DetectSmallMiss | main/main.c:76-94 | a table miss with fewer than 10000 pixels is never detected, because the wrapped lower bound stops the search before it starts |
| FrameDims.DetectBelowTwentyThousand | main/main.c:63-95 | every byte count below 20000 is undetectable |
| FrameDims.DetectQvga | main/main.c:54 | 153600 bytes is detected as 320x240 from the table |
| FrameDims.Detect192000 | main/main.c:76-91 | 192000 bytes (400x240 in RGB565) is detected as 300x320 |
| FrameDims.Detect76800 | main/main.c:76-91 | 76800 bytes is detected as 192x200 |
| FrameDims.Detect24000 | main/main.c:76-91 | 24000 bytes (120x100 in RGB565) is detected as 100x120 |
| FrameIngest.Resolve | main/main.c:302-330 | a payload uses the configured size when configured and the length matches; otherwise the detected size, else the configured size (when configured) or 640x480; the result is never zero |
| FrameIngest.Handle | main/main.c:244-443 | the handler never changes the session; the queue only grows, by at most one item, and a full queue is left unchanged |
| FrameIngest.Consume | main/main.c:185-210 | an empty queue leaves everything unchanged; otherwise the queue becomes its tail; a config head sets width, height and config_received and frees nothing; a payload head keeps the session, frees exactly its buffer and draws its data at its dimensions when non-empty |
| IngestProperties.InitialInv | main/main.c:39-42 | the start-up state (empty queue, nothing configured, nothing allocated) satisfies the ownership invariant |
| IngestProperties.AllocateRx | main/main.c:273-277 | allocating the receive buffer gives a live buffer that no queued payload owns |
| IngestProperties.ReleaseRx | main/main.c:441 | freeing the receive buffer restores the ownership invariant |
| IngestProperties.PublishFrameKeepsHolding | main/main.c:333-349 | copying and queueing a frame, or freeing the copy when the send fails, keeps the invariant while the receive buffer is held |
| IngestProperties.PublishConfigKeepsHolding | main/main.c:390-399 | queueing a blit_config item keeps the invariant while the receive buffer is held |
| IngestProperties.HandlePreservesInv | main/main.c:244-443 | every path of the handler keeps the invariant: at most 5 items, live buffers are exactly those owned by queued payloads, each freed at most once |
| IngestProperties.ConsumePreservesInv | main/main.c:187-209 | the consumer keeps the invariant: a dequeued payload's buffer is freed exactly there |
| IngestProperties.RunPreservesInv | main/main.c:531 | every interleaving of handler and consumer steps keeps the invariant, so the queue never holds more than 5 items |
| IngestProperties.DrainFreesEverything | main/main.c:206-209 | once the consumer has emptied the queue nothing is live and every buffer ever allocated was freed exactly once |
| IngestProperties.FullQueueDropsFrame | main/main.c:343-346 | a frame sent to a full queue leaves the queue as it was; the copy and then the receive buffer are freed |
| IngestProperties.PingAnswered | main/main.c:358-363 | a ping is answered with pong, queues nothing, keeps the session and message_count, and frees the receive buffer |
| IngestProperties.BlitConfigEnqueues | main/main.c:371-399 | a non-ping text message queues an item iff it is a blit_config with frameWidth and frameHeight and the queue has room; that item is the configuration; message_count advances by one modulo 2^32 |
| IngestProperties.ProducerStepsKeepSession | main/main.c:244-443 | any number of handler calls leaves the session as it was |
| IngestProperties.ConfigAppliedOnDequeue | main/main.c:188-193 | dequeuing a config sets width, height and config_received, draws nothing, and a payload of exactly width*height*2 bytes then gets the configured size |
| IngestProperties.ConfigIdempotent | main/main.c:188-193 | consuming the same config twice gives the session of consuming it once |
| IngestProperties.DrainInOrder | main/main.c:185-210 | draining the queue applies its configs in order (the last wins) and draws its payloads in queue order |
| IngestProperties.QueuedConfigNotYetApplied | main/main.c:305-330 | a 120x100 blit_config followed by a 24000-byte frame queues the frame as 100x120; after the config is dequeued the same frame gets 120x100 |
| IngestProperties.TableUnreachableFromHandler | main/main.c:52-61 | no byte count the handler can receive (at most 65535) matches a table row |
| FrameTasks.FrameSystem.constructor | main/main.c:39-42 | the globals start as an empty queue, 0x0 unconfigured session, message_count 1, no buffers |
| FrameTasks.FrameSystem.QueueSend | main/main.c:343 | xQueueSend with timeout 0 appends when fewer than 5 items are queued and otherwise fails, changing nothing else |
| FrameTasks.FrameSystem.ResolveDimensions | main/main.c:302-330 | the dimensions chosen from the globals are those of Resolve |
| FrameTasks.FrameSystem.QueueFrame | main/main.c:333-349 | the new globals are those of PublishFrame: copy queued, or copy freed when the queue is full, or nothing when malloc fails |
| FrameTasks.FrameSystem.QueueConfig | main/main.c:390-399 | the new globals are those of PublishConfig |
| FrameTasks.FrameSystem.WsHandler | main/main.c:244-443 | the new globals, the return code and the reply are exactly Handle's, and the ownership invariant is kept; the NUL write at buf[recv_len] stays within the 64 KiB buffer |
| FrameTasks.FrameSystem.DisplayTaskStep | main/main.c:187-209 | the new globals and the drawn frame are exactly Consume's, and the ownership invariant is kept |
| FrameTasks.IncrementWraps | main/main.c:438 | message_count++ on uint32_t wraps from 2^32-1 to 0 |
| FrameTasks.IsBinaryMessage | main/main.c:282-290 | the classifier loop returns true iff one of the first min(len, 16) bytes is below 32 and not newline, carriage return or tab |
| FrameTasks.PingCompare | main/main.c:354-358 | strncmp against "ping" on the NUL-terminated buffer agrees with the message starting with "ping" |
| PanelIo.ColorOrderBits | managed_components/waveshare__esp_lcd_dsi/esp_lcd_dsi.c:70-81 | RGB gives MADCTL 0, BGR gives the BGR bit, any other order is unsupported |
| PanelIo.TxParam | managed_components/waveshare__esp_lcd_dsi/esp_lcd_dsi.c:230 | a send appends (cmd, params) to the trace and returns the result the link gives that position; a null handle is rejected |
| PanelIo.Transmit | managed_components/waveshare__esp_lcd_hx8394/esp_lcd_hx8394.c:240-303 | a chain of sends with early return makes at most as many sends as planned, and at least one when any is planned |
| PanelIo.TransmitStops | managed_components/waveshare__esp_lcd_hx8394/esp_lcd_hx8394.c:240-303 | every send before the last one made succeeded; the chain succeeds iff it made every send and the last succeeded; otherwise its error is the last send's |
| PanelIo.TransmitAppend | managed_components/waveshare__esp_lcd_hx8394/esp_lcd_hx8394.c:240-303 | a chain a then b stops within a on a's first failure; otherwise b runs as its own chain, |a| positions later |
| PanelIo.TransmitFailsAt | managed_components/waveshare__esp_lcd_dsi/esp_lcd_dsi.c:230 | when sends before k succeed and send k fails, exactly k+1 sends are made and k's error is returned |
| PanelIo.TransmitSucceeds | managed_components/waveshare__esp_lcd_dsi/esp_lcd_dsi.c:205-237 | when every send succeeds, all planned sends are made and the chain succeeds |
| PanelIo.TransmitAllIff | managed_components/waveshare__esp_lcd_dsi/esp_lcd_dsi.c:205-237 | the chain succeeds iff every planned send succeeds |
| PanelIo.ShadowLastWrite | managed_components/waveshare__esp_lcd_hx8394/esp_lcd_hx8394.c:272-298 | after the table a shadow holds data[0] of the last row with data and that register's command |
| PanelIo.ShadowUnwritten | managed_components/waveshare__esp_lcd_dsi/esp_lcd_dsi.c:205-227 | without such a row the shadow keeps its value |
| PanelIo.ShadowIgnoresEmptyRow | managed_components/waveshare__esp_lcd_hx8394/esp_lcd_hx8394.c:275 | a row with no data bytes never changes a shadow, wherever it stands |
| PanelDsi.NewError | managed_components/waveshare__esp_lcd_dsi/esp_lcd_dsi.c:47-151 | bad arguments or vendor config give ESP_ERR_INVALID_ARG; success needs memory, GPIO, a supported colour order and the DPI panel; an unsupported order after the earlier checks gives ESP_ERR_NOT_SUPPORTED |
| PanelDsi.MirrorValue | managed_components/waveshare__esp_lcd_dsi/esp_lcd_dsi.c:293-309 | bit 0 of the result is mirror_x, bit 1 is mirror_y, all other bits are those of the input |
| PanelDsi.SetMirrorBits | managed_components/waveshare__esp_lcd_dsi/esp_lcd_dsi.c:289-309 | the set/clear steps compute MirrorValue |
| PanelDsi.InitPlan | managed_components/waveshare__esp_lcd_dsi/esp_lcd_dsi.c:186-232 | init plans MADCTL with the shadow first, then exactly the table's rows in order, one send each |
| PanelDsi.DsiPanel.New | managed_components/waveshare__esp_lcd_dsi/esp_lcd_dsi.c:47-151 | returns NewError's code, a panel exactly on success, with the colour-order MADCTL shadow, table, reset line and handle |
| PanelDsi.DsiPanel.Init | managed_components/waveshare__esp_lcd_dsi/esp_lcd_dsi.c:175-238 | the trace grows by the plan's prefix up to the first failure; the shadow is that of the rows sent; the error is the failed send's, else the DPI init's |
| PanelDsi.DsiPanel.SendTable | managed_components/waveshare__esp_lcd_dsi/esp_lcd_dsi.c:205-232 | the table loop's sends, result and MADCTL shadow are those of Transmit and ShadowAfter over the rows it reached |
| PanelDsi.DsiPanel.Reset | managed_components/waveshare__esp_lcd_dsi/esp_lcd_dsi.c:240-262 | with a reset line, drives !r, r, !r and succeeds; else with a handle sends SWRESET and returns its result; else does nothing |
| PanelDsi.DsiPanel.InvertColor | managed_components/waveshare__esp_lcd_dsi/esp_lcd_dsi.c:264-283 | a null handle gives ESP_ERR_INVALID_STATE; otherwise sends INVON or INVOFF and returns its result |
| PanelDsi.DsiPanel.Mirror | managed_components/waveshare__esp_lcd_dsi/esp_lcd_dsi.c:285-315 | a null handle gives ESP_ERR_INVALID_STATE; otherwise sends MADCTL with MirrorValue and stores it only when the send succeeds |
| PanelDsi.DsiPanel.DispOnOff | managed_components/waveshare__esp_lcd_dsi/esp_lcd_dsi.c:317-333 | sends DISPON or DISPOFF and returns its result; with a null handle the send itself fails with ESP_ERR_INVALID_ARG |
| PanelDsi.MirrorIdempotent | managed_components/waveshare__esp_lcd_dsi/esp_lcd_dsi.c:285-315 | mirroring twice with the same flags equals mirroring once |
| PanelDsi.MirrorKeepsColorOrder | managed_components/waveshare__esp_lcd_dsi/esp_lcd_dsi.c:293-309 | mirroring never changes the colour-order bit |
| PanelDsi.DefaultInitSequence | managed_components/waveshare__esp_lcd_dsi/esp_lcd_dsi.c:153-157 | with the default table and no failures, init sends MADCTL, exit sleep, display on, and keeps the shadow |
| PanelDsi.CustomMadctlWins | managed_components/waveshare__esp_lcd_dsi/esp_lcd_dsi.c:186-227 | with a custom table and every send succeeding, init transmits its whole plan, and the shadow ends as data[0] of the table's last MADCTL row with data |
| PanelHx8394.ColmodFor | managed_components/waveshare__esp_lcd_hx8394/esp_lcd_hx8394.c:85-99 | only 16, 18 and 24 bits are supported; both nibbles carry the DCS pixel-format code 5, 6 or 7 respectively |
| PanelHx8394.LaneCommand | managed_components/waveshare__esp_lcd_hx8394/esp_lcd_hx8394.c:218-238 | lane counts up to 4 are accepted; 1..4 give 0x60 + count - 1, 0 gives the two-lane value |
| PanelHx8394.NewError | managed_components/waveshare__esp_lcd_hx8394/esp_lcd_hx8394.c:49-166 | bad arguments give ESP_ERR_INVALID_ARG; success needs memory, GPIO, a supported colour order and pixel width, and the DPI panel; an unsupported order or width gives ESP_ERR_NOT_SUPPORTED |
| PanelHx8394.Preamble | managed_components/waveshare__esp_lcd_hx8394/esp_lcd_hx8394.c:240-257 | init sends four commands before the table |
| PanelHx8394.InitPlan | managed_components/waveshare__esp_lcd_hx8394/esp_lcd_hx8394.c:240-303 | init plans the four preamble sends, then exactly the table's rows in order, one send each |
| PanelHx8394.PreambleOutcome | managed_components/waveshare__esp_lcd_hx8394/esp_lcd_hx8394.c:240-257 | four early-return sends that stop at the first failure form one Transmit chain |
| PanelHx8394.InitOutcome | managed_components/waveshare__esp_lcd_hx8394/esp_lcd_hx8394.c:240-303 | the preamble followed by the table forms one chain: the table runs only after a complete preamble |
| PanelHx8394.DefaultInitOutcome | managed_components/waveshare__esp_lcd_hx8394/esp_lcd_hx8394.c:168-191 | with the default table and no failures, init makes 25 sends, keeps MADCTL and leaves COLMOD at 0x50 |
| PanelHx8394.DefaultTableResetsLanes | managed_components/waveshare__esp_lcd_hx8394/esp_lcd_hx8394.c:168-191 | with the default table, the configured DSI_INT0 is followed by another DSI_INT0 with the two-lane value, and no later one |
| PanelHx8394.CustomColmodWins | managed_components/waveshare__esp_lcd_hx8394/esp_lcd_hx8394.c:240-298 | with a custom table and every send succeeding, init transmits its whole plan, and COLMOD ends as data[0] of the table's last COLMOD row with data, whatever the pixel width |
| PanelHx8394.Hx8394Panel.New | managed_components/waveshare__esp_lcd_hx8394/esp_lcd_hx8394.c:49-166 | returns NewError's code, a panel exactly on success, with the MADCTL and COLMOD shadows, table, lane count, reset line and handle |
| PanelHx8394.Hx8394Panel.Init | managed_components/waveshare__esp_lcd_hx8394/esp_lcd_hx8394.c:209-310 | an unsupported lane count fails with nothing sent; otherwise the trace grows by the plan's prefix up to the first failure, both shadows are those of the rows sent, and the error is the failed send's, else the DPI init's |
| PanelHx8394.Hx8394Panel.SendAll | managed_components/waveshare__esp_lcd_hx8394/esp_lcd_hx8394.c:240-309 | the sends after the lane switch follow the plan up to the first failure and call the DPI init only when all succeed |
| PanelHx8394.Hx8394Panel.SendPreamble | managed_components/waveshare__esp_lcd_hx8394/esp_lcd_hx8394.c:240-257 | the first four sends follow the preamble up to the first failure; success means all four were sent |
| PanelHx8394.Hx8394Panel.StoreShadows | managed_components/waveshare__esp_lcd_hx8394/esp_lcd_hx8394.c:275-298 | a row with data and command MADCTL or COLMOD stores data[0] in that shadow; any other row changes nothing |
| PanelHx8394.Hx8394Panel.SendTable | managed_components/waveshare__esp_lcd_hx8394/esp_lcd_hx8394.c:272-303 | the table loop's sends, result and both shadows are those of Transmit and ShadowAfter over the rows it reached |
| PanelHx8394.Hx8394Panel.Reset | managed_components/waveshare__esp_lcd_hx8394/esp_lcd_hx8394.c:312-332 | with a reset line, drives r then !r and succeeds; else with a handle sends SWRESET and returns its result; else does nothing |
| PanelHx8394.Hx8394Panel.InvertColor | managed_components/waveshare__esp_lcd_hx8394/esp_lcd_hx8394.c:334-353 | a null handle gives ESP_ERR_INVALID_STATE; otherwise sends INVON or INVOFF and returns its result |
| PanelHx8394.Hx8394Panel.DispOnOff | managed_components/waveshare__esp_lcd_hx8394/esp_lcd_hx8394.c:355-371 | sends DISPON or DISPOFF and returns its result; with a null handle the send itself fails with ESP_ERR_INVALID_ARG |

## Left out

- Ethernet, netif, the event handlers and the HTTP server (`main/main.c` lines 218-242 and 445-524) are I/O. A request reaches the model as a `Request` value.
- The device-connected JSON reply to a GET (lines 248-270) is I/O; only the kind of reply is modelled.
- cJSON parsing is a foreign library. A parsed document is a `JsonDoc`: its `type` member, and frameWidth and frameHeight already converted by the `(uint16_t)` cast.
- The `(uint16_t)` cast of a double is not modelled for NaN or out-of-range values.
- The `strcmp` on a NULL type (a non-string `type` member) is excluded by the precondition `HandlerDefined`.
- Logging is left out. This includes the hex dump of `buf[0..7]`, which reads uninitialised bytes for messages shorter than 8.
- `rgb565_to_lvgl_display` (floating-point scaling and LVGL calls) is reduced to a "drawn" event carrying the frame.
- The FreeRTOS runtime is replaced by an interleaving of atomic handler and consumer steps. This covers task creation, the blocking receive (an empty queue leaves the state unchanged), watchdog resets, `vTaskDelay` and `app_main`.
- The handler reads `current_frame_width` and `current_frame_height` (lines 302-303) and then reads them again with `config_received` (line 305). The model assumes the display task does not apply a configuration between those reads. If it does, the handler can keep 0×0 from the first read while the second sees a matching configured size, and line 333 then drops the frame without a log.
- A message longer than 65535 bytes is modelled by the first read only, which is what the handler processes.
- A negative return of `httpd_req_recv` is modelled as an empty message. Both do nothing but free the buffer.
- `frame_queue` is assumed created: `app_main` returns before starting the network task when `xQueueCreate` fails.
- FrameIngest.Resolve: computes `current_frame_width * current_frame_height * 2` on unbounded integers. The C expression is a signed `int` product that can overflow above 2^31, which is undefined behaviour.
- PanelIo.TxParam: rejects a null handle with ESP_ERR_INVALID_ARG, as ESP-IDF's `esp_lcd_panel_io_tx_param` does. esp_lcd_panel_io.c is not part of this model.
- The DCS command codes (0x01, 0x11, 0x20, 0x21, 0x28, 0x29, 0x36, 0x3A) and the BGR bit are the standard MIPI DCS values. esp_lcd_panel_commands.h is not part of this model.
- esp_lcd_hx8394.h is not part of this model. The configuration structs of it and of `esp_lcd_dsi.h` appear only as the fields the drivers read.
- The drivers' I2C register writes (`esp_lcd_dsi.c` lines 89-117, `esp_lcd_hx8394.c` lines 108-133) are foreign hardware calls. So are `gpio_config`, `gpio_reset_pin`, `esp_lcd_new_panel_dpi`, the vtable patching and the `del` functions. Their outcomes enter as `Platform` fields, or as the DPI init's result.
- The delays of the init tables are kept in `InitCmd.delayMs` but have no effect.
- `init_cmds_size` is a `uint16_t`. Tables longer than 65535 rows are not excluded.
- The DSI driver's `colmod_val` field is never read or written by that driver, so it is not modelled.
