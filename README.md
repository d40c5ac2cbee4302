# Epson pick-and-place cell, modelled in Dafny

This project models the decision logic of a vision-guided pick-and-place cell.
A camera watches a conveyor. When a white (good) or orange (bad) item reaches
the ready line, the program stops the conveyor and takes a fresh capture. It
keeps the items inside the robot's reach and writes their counts and scaled
world coordinates into the Epson controller's Modbus registers. It then pulses
START, waits for the robot to report that its cycle is complete, and resets the
registers. This repeats until a pallet is full.

The model has six modules:

- `Transport` (transport.dfy) models the Modbus client as a class
  `ModbusClient`. It holds the controller's holding registers (`map<int, int>`)
  and coils (`map<int, bool>`), a log of the requests sent, and two scripts of
  replies (one for writes, one for reads). The pure `Bus` datatype is the
  client's state. Each write logs its request and consumes one reply. It
  changes the map only when the reply is an acknowledgement. The other replies
  are a raised `ModbusException`, an `isError()` response, and an
  `ExceptionResponse`. An empty write script acknowledges. An empty read
  script behaves like a raised exception.
- `ModbusFxns` (modbus_fxns.dfy) models the register helpers:
  - fixed-point scaling into an unsigned 16-bit register value;
  - slot-to-address arithmetic;
  - target-count validation;
  - the early-return error contract of every write;
  - `reset_bits`;
  - the bit-0 reading of the cycle-complete register.

  Every helper is a method on the client, proved equal to a pure function of
  the bus (`AfterCoords`, `AfterReset`, ...). The lemmas state what those
  functions promise.
- `CameraFxns` (camera_fxns.dfy) models the camera logic over contour records
  `(area, x, y, w, h)`:
  - the strict area band;
  - bounding-box centroids;
  - display zoning;
  - the readiness test;
  - the offsets of the pixel-to-world conversion;
  - rectangle cropping.
- `MainLoop` (main_loop.dfy) models the control loop:
  - the reach-bounds filter;
  - the dispatch order;
  - the polling wait;
  - the per-class totals and the conjunctive stop condition.

  `Step`, `Run` and `Session` specify one pass, the loop, and the whole
  program. `PickAndPlace` is the imperative loop, proved to end in the state
  that `Session` computes.
- `Selection` (selection.dfy) defines `Kept`, the increasing indices of the
  elements a predicate keeps. It characterises every order-preserving filter.
- `Wrappers` (wrappers.dfy) defines `Option`. `None` stands for the `None`
  that `check_robot_cycle_complete` returns on a read error.

`reset_bits` writes `max_items` (33) and `max_items_bad` (15) into registers
99 and 129, not zero. It zeroes slots `0..max_items-1`. Slot 0 is a no-op, so
slot `max_items` is left untouched.

## Model

| member | source | states |
|---|---|---|
| Transport.ModbusClient.constructor | modbus_fxns.py:72-93 | a connected client starts with the given registers, coils and reply scripts and an empty request log |
| Transport.ModbusClient.WriteCoil | modbus_fxns.py:104-105 | `write_coil` returns the next scripted reply, logs the request, and sets the coil only when the reply is an acknowledgement |
| Transport.ModbusClient.WriteRegister | modbus_fxns.py:171-172 | `write_register` returns the next scripted reply, logs the request, and sets the register only when acknowledged |
| Transport.ModbusClient.ReadInputRegisters | modbus_fxns.py:269-270 | `read_input_registers` returns the next scripted read reply and logs the request; it writes nothing |
| ModbusFxns.Trunc | modbus_fxns.py:192 | `int()` of a float truncates toward zero: it lies within 1 below a non-negative value and within 1 above a negative one |
| ModbusFxns.ToInt16AndScale | modbus_fxns.py:184-196 | the result always lies in [0, 65535]; it is trunc(100·v) when 100·v is in [0, 65536), and 0 otherwise |
| ModbusFxns.SmallNegativeIsNotAnError | modbus_fxns.py:191-193 | for v in (-0.01, 0), trunc(100·v) is 0, so the value passes the range test rather than taking the error branch |
| ModbusFxns.ScalingExamples | modbus_fxns.py:191-196 | 10.255 scales to 1025 (truncated); 655.35 gives 65535; 655.36 and -3.5 are out of range and give 0 |
| ModbusFxns.SlotOfRegister | modbus_fxns.py:214-220 | X registers sit at even and Y registers at odd offsets from the class's base (32 or 100), and the slot number can be read back from either |
| ModbusFxns.SlotPairsDisjoint | modbus_fxns.py:214-220 | two distinct slots of one class never share an X or a Y register |
| ModbusFxns.GoodSlotsClearOfCounts | modbus_fxns.py:214-220 | good slots 1..33 lie in registers 32..97, clear of count register 99 and of the bad block at 100 |
| ModbusFxns.GoodSlot34IsGoodCount | modbus_fxns.py:166-220 | good slot 34's Y register is the good count register 99 |
| ModbusFxns.BadSlot15IsBadCount | modbus_fxns.py:166-220 | bad slot 15's Y register is the bad count register 129; bad slots 1..14 lie below it |
| ModbusFxns.CycleStatus | modbus_fxns.py:260-289 | Some(1) iff the read succeeds with at least one value whose bit 0 is set; Some(0) iff it succeeds and bit 0 is clear; None iff the read fails, raises, or returns no value |
| ModbusFxns.CycleStatusReadsBitZeroOnly | modbus_fxns.py:275-284 | the status depends only on bit 0 of the first value read: 2 and 0xFFFE read as 0 (not done), and extra values after the first are ignored |
| ModbusFxns.SlotZeroWritesNothing | modbus_fxns.py:211-212 | sending coordinates to slot 0 leaves the bus, its log included, unchanged |
| ModbusFxns.CoordsErrorContract | modbus_fxns.py:198-255 | for slot n ≠ 0, X is always requested; if X fails, nothing else is requested and no register changes; if X is acknowledged, Y is requested next; with all writes acknowledged both registers hold the scaled values |
| ModbusFxns.TargetCountContract | modbus_fxns.py:153-182 | a count outside 0..40 sends nothing; a valid count is requested on register 99 (good) or 129 (bad) and stored there only if acknowledged |
| ModbusFxns.ZeroSlotsAcked | modbus_fxns.py:134-138 | with all writes acknowledged, zeroing slots 0..k-1 sets exactly the registers of slots 1..k-1 to 0 and changes nothing else |
| ModbusFxns.ResetAcked | modbus_fxns.py:120-138 | with all writes acknowledged, `reset_bits` clears START and CONVEYOR_ON, writes the two capacities into 99 and 129, zeroes the slot ranges, and leaves every other register as it was |
| ModbusFxns.ZeroSlotsLog | modbus_fxns.py:134-138 | whatever the replies, zeroing slots only appends requests, each a register write into slots 1..k-1 |
| ModbusFxns.ResetLogGrows | modbus_fxns.py:120-138 | whatever the replies, `reset_bits` only appends to the request log |
| ModbusFxns.CellResetCounts | modbus_fxns.py:120-138 | the reset the cell uses (33, 15) leaves coils 512 and 513 off, 33 in register 99 and 15 in 129, so bad slot 15's Y register reads 15 |
| ModbusFxns.CellResetZeroes | modbus_fxns.py:134-138 | that reset zeroes good slots 1..32 and bad slots 1..14 |
| ModbusFxns.CellResetKeepsLastSlot | modbus_fxns.py:134-138 | that reset leaves good slot 33 and bad slot 15's X register untouched |
| ModbusFxns.SetModbusBit | modbus_fxns.py:95-118 | one coil write; the new bus is that write's effect |
| ModbusFxns.SendTargetCount | modbus_fxns.py:153-182 | the new bus is `AfterTargetCount`, the validated count write |
| ModbusFxns.SendModbusCoords | modbus_fxns.py:198-258 | the new bus is `AfterCoords`: slot 0 does nothing; X is written; Y is written only after an acknowledged X |
| ModbusFxns.Conveyor | modbus_fxns.py:140-151 | "on" sets coil 513, "off" clears it, any other status writes nothing |
| ModbusFxns.ResetBits | modbus_fxns.py:120-138 | the two loops leave the bus in the state `AfterReset` describes |
| ModbusFxns.ZeroSlotLoop | modbus_fxns.py:134-138 | one zeroing loop of `reset_bits` ends in the state `ZeroSlots` describes |
| ModbusFxns.CheckRobotCycleComplete | modbus_fxns.py:260-289 | one read of input register 31; the returned status is `CycleStatus` of the bus before the read |
| CameraFxns.Centroid | camera_fxns.py:163-165 | the coordinate is the bounding-box centre: equally far from the left and right edges and from the top and bottom edges |
| CameraFxns.ZoneOf | camera_fxns.py:170-178 | not-yet-reachable iff x ≤ 323; past iff x > 323 and (x > 780, y ≤ 30 or y ≥ 185); reachable iff neither |
| CameraFxns.ZoningExamples | camera_fxns.py:170-178 | the boundary cases of the three zones, including that x ≤ 323 wins whatever y is |
| CameraFxns.Detections | camera_fxns.py:155-166 | there are never more detections than contours |
| CameraFxns.DetectionsAreBandCentroids | camera_fxns.py:155-166 | the detections are, in contour order, exactly the centroids of the contours whose area is strictly between 500 and 800 |
| CameraFxns.AreaBand | camera_fxns.py:159-166 | a single contour yields its centroid iff 500 < area < 800 |
| CameraFxns.AreaBandExamples | camera_fxns.py:160 | areas 500 and 800 are excluded; 501 and 799 are kept |
| CameraFxns.FindItems | camera_fxns.py:139-185 | the loop returns the detections, which do not depend on the item's class; it returns one display marker per detection, holding its zone and class |
| CameraFxns.AnyAtReadyLine | camera_fxns.py:267-272 | true iff some coordinate has x ≥ 640 |
| CameraFxns.ReadinessIgnoresOrderAndClass | camera_fxns.py:256-273 | readiness depends only on the multiset of all detections, not on their order or on which list holds them |
| CameraFxns.NothingSeenIsNotReady | camera_fxns.py:265-273 | two empty lists are not ready |
| CameraFxns.WaitForItems | camera_fxns.py:256-273 | the two loops with early return compute `Ready`: some good or bad item has x ≥ 640 |
| CameraFxns.ConvertPixToWorld | camera_fxns.py:234-254 | the world point is the projected pixel moved by (-15, +8) for a good item and (-17, +7) for a bad one |
| CameraFxns.SliceBound | camera_fxns.py:111 | a Python slice bound, clamped into the length; non-negative bounds are min(i, n) |
| CameraFxns.Slice | camera_fxns.py:111 | a Python slice of a sequence; in-range bounds give the ordinary subsequence |
| CameraFxns.CropImg | camera_fxns.py:97-113 | the crop has rows y..y+h clamped to the image, each holding columns x..x+w clamped to its row |
| CameraFxns.DefaultCrop | camera_fxns.py:97-111 | on a large enough image, the default crop is rows 374..581 (208 rows), each truncated to 1190 columns |
| MainLoop.KeepGoing | main.py:54 | while items stays good + bad, the loop goes on exactly while good < 15 and bad < 5; the items < 20 test never decides |
| MainLoop.InBounds | main.py:104-111 | an in-bounds pixel lies in the display's reachable zone, with x > 350 and y > 30 |
| MainLoop.BoundsExamples | main.py:104-111 | all four bounds are strict: 350, 750, 30 and 185 themselves are rejected |
| MainLoop.BoundsInsideDisplayZone | main.py:104-111 | every in-bounds item is in the display's reachable zone, but a reachable-zone item (x = 330) can be rejected |
| MainLoop.WorldCoordsTranslate | main.py:92-100 | one world point per detection, each its projection moved by its class's offset, so two items of one class are as far apart as their projections |
| MainLoop.ConvertAll | main.py:92-100 | the loop converts every detection in order with its class's offsets |
| MainLoop.ToRobot | main.py:110-113 | the filter never sends more items than were detected |
| MainLoop.ToRobotIsBoundsSelection | main.py:110-113 | the dispatched list is the order-preserving selection of the world points whose pixel is in bounds, one per in-bounds item |
| MainLoop.FilterReachable | main.py:110-120 | the loop builds exactly that selection |
| MainLoop.UnreachableReport | main.py:113-122 | both printed figures are the same number, between 0 and the good detections, and 0 exactly when every good item is in bounds |
| MainLoop.DetectBoth | main.py:61-62 | the good and bad detections of one capture |
| MainLoop.SlotRequestsStartAtSlotOne | main.py:126-131 | slots are numbered i+1: the 2k slot writes all land in [base, base+2k), never on slot 0 |
| MainLoop.SendSlotsAcked | main.py:126-131 | with all writes acknowledged, sending k slots requests X then Y for slots 1..k in order and touches no coil |
| MainLoop.WriteNextSlot | modbus_fxns.py:219-220 | writing slot k's pair keeps slots 1..k-1 and every register outside slots 1..k |
| MainLoop.SendSlotsFillSlots | main.py:126-131 | with all writes acknowledged, slot n holds the scaled coordinates of item n-1, and no register outside the slots changes |
| MainLoop.SlotsHoldBelow | main.py:129-131 | the bad slot writes do not disturb the good slots, which lie below them |
| MainLoop.DispatchAcked | main.py:125-137 | with all writes acknowledged and valid counts, the requests are: good count, good slots, bad count, bad slots, START on, START off; START ends off |
| MainLoop.DispatchFillsRegisters | main.py:125-131 | with up to 33 good and 14 bad items, the controller ends holding both counts and every slot's scaled coordinates |
| MainLoop.BadCountOverwrittenBySlot15 | main.py:129-131 | with 15 or more bad items, slot 15's Y coordinate overwrites the bad count in register 129 |
| MainLoop.AwaitRobot | main.py:141-143 | polling only reads register 31, at least once; registers, coils and the write script are unchanged |
| MainLoop.WaitEndsOnErrorOrCompletion | main.py:141-143 | the wait stops after one read unless that read is exactly 0, so `None` from a failed read ends it too |
| MainLoop.Dispatch | main.py:125-137 | the dispatch loops leave the bus in the state `AfterDispatch` describes |
| MainLoop.WaitForRobot | main.py:141-143 | the polling loop ends in the state `AwaitRobot` describes |
| MainLoop.Step | main.py:55-147 | every pass consumes at least one capture, and at most the rest |
| MainLoop.Run | main.py:54-147 | the loop only moves forward through the captures and never past their end; it changes nothing once ESC was seen or a limit is reached |
| MainLoop.EscapeEndsRun | main.py:54-66 | ESC on the conveyor capture ends the loop at once: its only request is conveyor on, registers, totals and reports are kept, and nothing more is captured |
| MainLoop.PickUpCounts | main.py:110-147 | a pick-up adds exactly the in-bounds detections of each class to its total, with no capping, and sets items = good + bad |
| MainLoop.ReportRepeatsGoodFigure | main.py:115-122 | both "can't reach" figures are the good items out of bounds; bad items never enter them |
| MainLoop.StepIdlePass | main.py:56-70 | a pass that sees nothing at the ready line only requests conveyor on; registers, totals and reports are unchanged |
| MainLoop.StepTotals | main.py:54-147 | over a pass, class totals never decrease, items is their sum unless nothing changed, and reports are only appended, each with equal figures |
| MainLoop.RunStopsOnlyAtLimitEscapeOrEnd | main.py:54 | the loop ends only on ESC, when the captures run out, or when items ≥ 20, good ≥ 15 or bad ≥ 5 |
| MainLoop.RunTotals | main.py:54-147 | over the loop, totals never decrease, items stays good + bad, and reports only grow, each with equal figures |
| MainLoop.SessionAbortsOnlyOnZero | main.py:33-35 | the program aborts iff the start-up read answers exactly 0; then it has read once and written nothing, and a failed read does not abort |
| MainLoop.SessionTotals | main.py:24-149 | a finished session's totals are non-negative and add up, and every report repeats its good figure |
| MainLoop.DispatchKeepsAllAck | main.py:125-137 | a dispatch consumes acknowledgements only, whatever the counts |
| MainLoop.PickUpOrder | main.py:125-145 | with all writes acknowledged and valid counts, a pick-up requests the whole dispatch, then polls register 31, before any reset write |
| MainLoop.StepPickUpOrder | main.py:56-141 | such a pass requests conveyor on, then conveyor off, then the dispatch, then the first poll |
| MainLoop.SendSlotsLog | main.py:126-131 | whatever the replies, slot writes only append register writes into the class's slots 1..k |
| MainLoop.ClassBlockLog | main.py:125-131 | whatever the replies, one class's share is its count (only when 0..40) followed by writes into its slots |
| MainLoop.DispatchOrder | main.py:125-137 | whatever the replies, a dispatch appends the good block, then the bad block, then START on and off |
| MainLoop.PickUpPhases | main.py:125-145 | whatever the replies, a pick-up's requests begin with that dispatch, followed by a poll of register 31 |
| MainLoop.StepPickUpPhases | main.py:56-141 | whatever the replies, a pass that picks up requests conveyor on, conveyor off, then that dispatch and the poll |
| MainLoop.StepKeepsAllAck | main.py:54-147 | a pass keeps an all-acknowledging controller all-acknowledging |
| MainLoop.RunKeepsAllAck | main.py:54-147 | so does the whole loop |
| MainLoop.SessionEndsReset | main.py:145-149 | with all writes acknowledged, a session that does not abort ends with START and the conveyor off and 33 and 15 in registers 99 and 129 |
| MainLoop.LoopBody | main.py:55-147 | one pass of the imperative loop ends in the state `Step` computes |
| MainLoop.PickUp | main.py:92-147 | the pick-up half of a pass ends in the state `PickUpCycle` computes |
| MainLoop.End | main.py:16-22 | `end(client)` performs the reset with 33 and 15 |
| MainLoop.PickAndPlace | main.py:24-149 | the program's outcome and final bus are those `Session` computes |

## Left out

- Camera acquisition, calibration and preprocessing are left out: `take_photo`, `calibrate_camera`, `preprocess` and the OpenCV calls. This is hardware I/O and foreign code. A capture is given as the contour records of its two colour masks.
- The homography is left out. `calculate_homography` and the projection inside `convert_pix_to_world` are floating-point matrix code, so the projection is a parameter `project`. Only the class offsets are modelled.
- Floating-point rounding is left out. Coordinates are reals, and `int()` is exact truncation toward zero.
- The display is left out: circles, `show_img`, `start_img_window`, printed messages. `find_items` returns a marker record per detection in place of its circles. The two "can't reach" figures are kept, as `Unreachable`.
- ESC is not modelled as a keyboard. Each capture carries an `escape` flag for an ESC press while it was shown.
- The camera is a finite sequence of captures. The loop also ends when the captures run out; the real loop would keep taking photos.
- The capture taken before the loop is left out (main.py:40-47). Its detections are overwritten before use. Its ESC branch calls `end()` without the client, which would raise.
- `initialize_modbus` is replaced by the client's constructor. TCP setup, `test`, `log_seal_data` and `RobotState` are unused or network setup.
- `time.sleep` delays carry no logic and are left out.
- The robot is modelled only through scripted replies. A poll that never stops answering 0 would make the real program wait forever. In the model, an exhausted read script answers like a failed read, so the wait ends.
- The scripts pix_locations_live.py, unused.py, gig_cam_test.py and lacey_take_photo.py are interactive test tools and are not part of this model.
- MainLoop.DispatchAcked: the request order is proved only when every write is acknowledged and both counts are at most 40. For any replies, `DispatchOrder` states the order of the good block, the bad block and the START pulse.
- MainLoop.PickUpOrder: the exact requests are stated only when every write is acknowledged and both counts are at most 40. For any replies, `PickUpPhases` states the order of the blocks.
- MainLoop.StepPickUpOrder: likewise stated only under those conditions. For any replies, `StepPickUpPhases` states the order.
- MainLoop.DispatchFillsRegisters: proved for at most 33 good and 14 bad items. Beyond that, slots overlap the count registers, as `GoodSlot34IsGoodCount` and `BadCountOverwrittenBySlot15` show.
- MainLoop.SessionEndsReset: stated only for a controller that acknowledges every write.
- CameraFxns.CropImg: the row and column contents are stated for non-negative arguments only. Negative slice bounds follow Python's rule in `SliceBound`, but nothing further is proved about them.
