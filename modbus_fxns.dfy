/**
 * The Modbus helpers of the cell: fixed-point encoding of coordinates into
 * unsigned 16-bit registers, the controller's register map, and the write
 * operations with their early-return error contract.
 *
 * Each operation is a method on a `ModbusClient` that is proved to leave the
 * client in the state a pure function of the old state gives (`AfterCoords`,
 * `AfterReset`, ...); the lemmas below state what those functions promise.
 */
module ModbusFxns {
  import opened Wrappers
  import opened Transport

  // Coils
  const CYCLE_COMPLETE := 511
  const START_COMMAND := 512
  const CONVEYOR_ON := 513

  // Registers
  const ROBOT_CYCLE_COMPLETE := 31
  const GOOD_COUNT_REGISTER := 99
  const BAD_COUNT_REGISTER := 129
  const GOOD_BASE := 32
  const BAD_BASE := 100
  const MAX_TARGET_COUNT := 40
  const UINT16_MAX := 0xFFFF

  /** Python's `int()` on a number: truncation toward zero. */
  function Trunc(v: real): (r: int)
    ensures 0.0 <= v ==> r as real <= v < r as real + 1.0
    ensures v < 0.0 ==> r as real - 1.0 < v <= r as real
  {
    if v >= 0.0 then v.Floor else -((-v).Floor)
  }

  /**
   * Scale a coordinate to two implied decimals for an unsigned 16-bit
   * register; a value outside the register's range is replaced by 0.
   */
  function ToInt16AndScale(v: real): (r: int)
    ensures 0 <= r <= UINT16_MAX
    ensures 0.0 <= 100.0 * v < 65536.0 ==> r as real <= 100.0 * v < r as real + 1.0
    ensures 100.0 * v < 0.0 || 65536.0 <= 100.0 * v ==> r == 0
  {
    var scaled := Trunc(100.0 * v);
    if !(0 <= scaled <= UINT16_MAX) then 0 else scaled
  }

  /** A coordinate in (-0.01, 0) truncates to 0 itself: it is not caught as out of range. */
  lemma SmallNegativeIsNotAnError(v: real)
    requires -0.01 < v < 0.0
    ensures Trunc(100.0 * v) == 0
  {
  }

  lemma ScalingExamples()
    ensures ToInt16AndScale(10.255) == 1025
    ensures ToInt16AndScale(655.35) == 65535
    ensures ToInt16AndScale(655.36) == 0
    ensures ToInt16AndScale(-3.5) == 0
  {
  }

  // The register map

  function SlotBase(good: bool): int {
    if good then GOOD_BASE else BAD_BASE
  }

  function CountRegister(good: bool): int {
    if good then GOOD_COUNT_REGISTER else BAD_COUNT_REGISTER
  }

  /** The X register of slot `n`; slots are numbered from 1. */
  function XRegister(good: bool, n: int): int {
    SlotBase(good) + 2 * (n - 1)
  }

  /** The Y register of slot `n`, right after its X register. */
  function YRegister(good: bool, n: int): int {
    XRegister(good, n) + 1
  }

  /**
   * X registers sit at even and Y registers at odd offsets from the class's
   * base, and the slot number can be read back from either.
   */
  lemma SlotOfRegister(good: bool, n: int)
    ensures var x, y := XRegister(good, n) - SlotBase(good), YRegister(good, n) - SlotBase(good);
      && x % 2 == 0 && x / 2 + 1 == n
      && y % 2 == 1 && (y - 1) / 2 + 1 == n
  {
  }

  /** Two distinct slots of one class never share a register. */
  lemma SlotPairsDisjoint(good: bool, n: int, m: int)
    requires n != m
    ensures XRegister(good, n) != XRegister(good, m) && XRegister(good, n) != YRegister(good, m)
    ensures YRegister(good, n) != XRegister(good, m) && YRegister(good, n) != YRegister(good, m)
  {
  }

  /** Good slots 1..33 occupy registers 32..97: clear of the count register 99 and of the bad slots. */
  lemma GoodSlotsClearOfCounts(n: int)
    requires 1 <= n <= 33
    ensures GOOD_BASE <= XRegister(true, n) && YRegister(true, n) <= 97
  {
  }

  /** Good slot 34's Y register is the good target-count register. */
  lemma GoodSlot34IsGoodCount()
    ensures YRegister(true, 34) == GOOD_COUNT_REGISTER
  {
  }

  /** Bad slot 15's Y register is the bad target-count register. */
  lemma BadSlot15IsBadCount()
    ensures YRegister(false, 15) == BAD_COUNT_REGISTER
    ensures forall n :: 1 <= n <= 14 ==> YRegister(false, n) < BAD_COUNT_REGISTER
  {
  }

  /** Registers of slots 1..k-1 of one class: [base, base + 2(k-1)). */
  predicate InSlotRange(good: bool, a: int, k: int) {
    SlotBase(good) <= a < SlotBase(good) + 2 * (k - 1)
  }

  // What each write operation does to the bus

  function AfterTargetCount(b: Bus, count: int, good: bool): Bus {
    if count < 0 || count > MAX_TARGET_COUNT then b
    else AfterWriteRegister(b, CountRegister(good), count)
  }

  function AfterCoords(b: Bus, n: int, x: real, y: real, good: bool): Bus {
    if n == 0 then b
    else
      var b1 := AfterWriteRegister(b, XRegister(good, n), ToInt16AndScale(x));
      if NextReply(b) != Ack then b1
      else AfterWriteRegister(b1, YRegister(good, n), ToInt16AndScale(y))
  }

  function AfterConveyor(b: Bus, status: string): Bus {
    if status == "on" then AfterWriteCoil(b, CONVEYOR_ON, true)
    else if status == "off" then AfterWriteCoil(b, CONVEYOR_ON, false)
    else b
  }

  /** `send_modbus_coords(client, i, 0, 0, good)` for i in range(k). */
  function ZeroSlots(b: Bus, k: int, good: bool): Bus
    // `b` is listed so that a literal `k` (33 in the cell's reset) does not
    // let the verifier unroll all 33 writes wherever a reset appears
    decreases k, b
  {
    if k <= 0 then b
    else AfterCoords(ZeroSlots(b, k - 1, good), k - 1, 0.0, 0.0, good)
  }

  function AfterReset(b: Bus, maxItems: int, maxItemsBad: int): Bus {
    var b1 := AfterWriteCoil(b, START_COMMAND, false);
    var b2 := AfterWriteCoil(b1, CONVEYOR_ON, false);
    var b3 := AfterTargetCount(b2, maxItems, true);
    var b4 := ZeroSlots(b3, maxItems, true);
    var b5 := AfterTargetCount(b4, maxItemsBad, false);
    ZeroSlots(b5, maxItemsBad, false)
  }

  /** The robot's answer to "is your cycle complete?": bit 0 of input register 31, or None. */
  function CycleStatus(b: Bus): (r: Option<int>)
    ensures r == Some(1) <==> NextReadReply(b).Registers? && |NextReadReply(b).values| > 0
                              && NextReadReply(b).values[0] & 1 == 1
    ensures r == Some(0) <==> NextReadReply(b).Registers? && |NextReadReply(b).values| > 0
                              && NextReadReply(b).values[0] & 1 == 0
    ensures r == None <==> !NextReadReply(b).Registers? || |NextReadReply(b).values| == 0
  {
    match NextReadReply(b)
    case Registers(values) =>
      if |values| == 0 then None
      else if values[0] & 0x1 != 0 then Some(1)
      else Some(0)
    case _ => None
  }

  /**
   * Only bit 0 of register 31 matters: two successful reads whose first
   * values agree in bit 0 give the same status, and a value with only
   * higher bits set (2, 0xFFFE) reads as "not complete".
   */
  lemma CycleStatusReadsBitZeroOnly(b: Bus, b': Bus)
    requires NextReadReply(b).Registers? && |NextReadReply(b).values| > 0
    requires NextReadReply(b').Registers? && |NextReadReply(b').values| > 0
    requires NextReadReply(b).values[0] & 1 == NextReadReply(b').values[0] & 1
    ensures CycleStatus(b) == CycleStatus(b')
    ensures CycleStatus(b.(readReplies := [Registers([2])])) == Some(0)
    ensures CycleStatus(b.(readReplies := [Registers([0xFFFE])])) == Some(0)
    ensures CycleStatus(b.(readReplies := [Registers([3, 0])])) == Some(1)
  {
    var v, v' := NextReadReply(b).values[0], NextReadReply(b').values[0];
    if v & 1 == 0 {
      assert CycleStatus(b) == Some(0) && CycleStatus(b') == Some(0);
    } else {
      assert v & 1 == 1 by { BitZeroIsZeroOrOne(v); }
      assert CycleStatus(b) == Some(1) && CycleStatus(b') == Some(1);
    }
  }

  lemma BitZeroIsZeroOrOne(v: bv16)
    ensures v & 1 == 0 || v & 1 == 1
  {
  }

  // The error contract of a single coordinate write

  /** Slot 0 is a no-op sentinel. */
  lemma SlotZeroWritesNothing(b: Bus, x: real, y: real, good: bool)
    ensures AfterCoords(b, 0, x, y, good) == b
  {
  }

  /**
   * For a slot n != 0, X is written first; Y is written only when the X write
   * was acknowledged, and a failed write changes no register.
   */
  lemma CoordsErrorContract(b: Bus, n: int, x: real, y: real, good: bool)
    requires n != 0
    ensures var r := AfterCoords(b, n, x, y, good);
      var xw := RegisterWrite(XRegister(good, n), ToInt16AndScale(x));
      var yw := RegisterWrite(YRegister(good, n), ToInt16AndScale(y));
      && r.coils == b.coils && r.readReplies == b.readReplies
      && (NextReply(b) != Ack ==> r.log == b.log + [xw] && r.registers == b.registers)
      && (NextReply(b) == Ack ==> r.log == b.log + [xw, yw])
      && (AllAck(b) ==> AllAck(r))
      && (AllAck(b) ==> r.registers == b.registers[XRegister(good, n) := ToInt16AndScale(x)]
                                                  [YRegister(good, n) := ToInt16AndScale(y)])
  {
  }

  /** A target count outside 0..40 is not sent; a valid one goes to register 99 or 129. */
  lemma TargetCountContract(b: Bus, count: int, good: bool)
    ensures var r := AfterTargetCount(b, count, good);
      && (count < 0 || MAX_TARGET_COUNT < count ==> r == b)
      && (AllAck(b) ==> AllAck(r))
      && (0 <= count <= MAX_TARGET_COUNT ==>
            r.log == b.log + [RegisterWrite(CountRegister(good), count)]
            && r.registers == (if NextReply(b) == Ack then b.registers[CountRegister(good) := count]
                               else b.registers))
  {
  }

  // reset_bits when every write is acknowledged

  lemma {:induction false} ZeroSlotsAcked(b: Bus, k: int, good: bool)
    requires AllAck(b)
    ensures var r := ZeroSlots(b, k, good);
      && AllAck(r) && r.coils == b.coils && r.readReplies == b.readReplies
      && b.log <= r.log
      && (forall a :: a in r.registers <==> a in b.registers || InSlotRange(good, a, k))
      && (forall a :: a in r.registers ==>
            r.registers[a] == if InSlotRange(good, a, k) then 0 else b.registers[a])
    decreases k
  {
    if k > 0 {
      ZeroSlotsAcked(b, k - 1, good);
      var p := ZeroSlots(b, k - 1, good);
      assert ToInt16AndScale(0.0) == 0;
      if k - 1 != 0 {
        CoordsErrorContract(p, k - 1, 0.0, 0.0, good);
      }
    }
  }

  /**
   * With every write acknowledged, `reset_bits(max_items, max_items_bad)`
   * clears START and CONVEYOR_ON, writes the two capacities (not 0) into the
   * count registers, zeroes good slots 1..max_items-1 and bad slots
   * 1..max_items_bad-1, and changes no other register.
   */
  lemma ResetAcked(b: Bus, maxItems: int, maxItemsBad: int)
    requires AllAck(b)
    requires 0 <= maxItems <= 34 && 0 <= maxItemsBad <= 15
    ensures var r := AfterReset(b, maxItems, maxItemsBad);
      && AllAck(r) && r.readReplies == b.readReplies && b.log <= r.log
      && r.coils == b.coils[START_COMMAND := false][CONVEYOR_ON := false]
      && (forall a :: a in r.registers <==>
            a in b.registers || a == GOOD_COUNT_REGISTER || a == BAD_COUNT_REGISTER
            || InSlotRange(true, a, maxItems) || InSlotRange(false, a, maxItemsBad))
      && r.registers[GOOD_COUNT_REGISTER] == maxItems
      && r.registers[BAD_COUNT_REGISTER] == maxItemsBad
      && (forall a :: InSlotRange(true, a, maxItems) || InSlotRange(false, a, maxItemsBad) ==>
            r.registers[a] == 0)
      && (forall a ::
            (a in b.registers && a != GOOD_COUNT_REGISTER && a != BAD_COUNT_REGISTER
             && !InSlotRange(true, a, maxItems) && !InSlotRange(false, a, maxItemsBad)) ==>
            r.registers[a] == b.registers[a])
  {
    var b1 := AfterWriteCoil(b, START_COMMAND, false);
    var b2 := AfterWriteCoil(b1, CONVEYOR_ON, false);
    var b3 := AfterTargetCount(b2, maxItems, true);
    ZeroSlotsAcked(b3, maxItems, true);
    var b4 := ZeroSlots(b3, maxItems, true);
    var b5 := AfterTargetCount(b4, maxItemsBad, false);
    ZeroSlotsAcked(b5, maxItemsBad, false);
    assert !InSlotRange(true, GOOD_COUNT_REGISTER, maxItems);
    assert !InSlotRange(false, BAD_COUNT_REGISTER, maxItemsBad);
  }

  // reset_bits whatever the replies

  /** Zeroing slots only appends requests, each a register write into slots 1..k-1. */
  lemma {:induction false} ZeroSlotsLog(b: Bus, k: int, good: bool)
    ensures var r := ZeroSlots(b, k, good);
      && b.log <= r.log
      && forall i :: |b.log| <= i < |r.log| ==> r.log[i].RegisterWrite? && InSlotRange(good, r.log[i].address, k)
    decreases k
  {
    if k > 1 {
      ZeroSlotsLog(b, k - 1, good);
      CoordsErrorContract(ZeroSlots(b, k - 1, good), k - 1, 0.0, 0.0, good);
    }
  }

  /** `reset_bits` only appends to the request log, whatever the replies. */
  lemma ResetLogGrows(b: Bus, maxItems: int, maxItemsBad: int)
    ensures b.log <= AfterReset(b, maxItems, maxItemsBad).log
  {
    var b1 := AfterWriteCoil(b, START_COMMAND, false);
    var b2 := AfterWriteCoil(b1, CONVEYOR_ON, false);
    var b3 := AfterTargetCount(b2, maxItems, true);
    ZeroSlotsLog(b3, maxItems, true);
    var b4 := ZeroSlots(b3, maxItems, true);
    var b5 := AfterTargetCount(b4, maxItemsBad, false);
    ZeroSlotsLog(b5, maxItemsBad, false);
  }

  /**
   * The reset the cell performs (33 good, 15 bad), first part: START and
   * CONVEYOR_ON are off, registers 99 and 129 hold 33 and 15, and bad slot
   * 15's Y register holds 15 because it is register 129.
   */
  lemma CellResetCounts(b: Bus, maxItems: int, maxItemsBad: int)
    requires AllAck(b)
    requires maxItems == 33 && maxItemsBad == 15
    ensures var r := AfterReset(b, maxItems, maxItemsBad);
      && CONVEYOR_ON in r.coils && START_COMMAND in r.coils
      && !r.coils[START_COMMAND] && !r.coils[CONVEYOR_ON]
      && GOOD_COUNT_REGISTER in r.registers && BAD_COUNT_REGISTER in r.registers
      && r.registers[GOOD_COUNT_REGISTER] == 33 && r.registers[BAD_COUNT_REGISTER] == 15
      && r.registers[YRegister(false, 15)] == 15
  {
    ResetAcked(b, maxItems, maxItemsBad);
  }

  /** Second part: good slots 1..32 and bad slots 1..14 are zero. */
  lemma CellResetZeroes(b: Bus, maxItems: int, maxItemsBad: int)
    requires AllAck(b)
    requires maxItems == 33 && maxItemsBad == 15
    ensures var r := AfterReset(b, maxItems, maxItemsBad);
      && (forall n :: 1 <= n <= 32 ==>
            && XRegister(true, n) in r.registers && YRegister(true, n) in r.registers
            && r.registers[XRegister(true, n)] == 0 && r.registers[YRegister(true, n)] == 0)
      && (forall n :: 1 <= n <= 14 ==>
            && XRegister(false, n) in r.registers && YRegister(false, n) in r.registers
            && r.registers[XRegister(false, n)] == 0 && r.registers[YRegister(false, n)] == 0)
  {
    ResetAcked(b, maxItems, maxItemsBad);
    var r := AfterReset(b, maxItems, maxItemsBad);
    forall n | 1 <= n <= 32
      ensures XRegister(true, n) in r.registers && YRegister(true, n) in r.registers
      ensures r.registers[XRegister(true, n)] == 0 && r.registers[YRegister(true, n)] == 0
    {
      assert InSlotRange(true, XRegister(true, n), maxItems);
      assert InSlotRange(true, YRegister(true, n), maxItems);
    }
    forall n | 1 <= n <= 14
      ensures XRegister(false, n) in r.registers && YRegister(false, n) in r.registers
      ensures r.registers[XRegister(false, n)] == 0 && r.registers[YRegister(false, n)] == 0
    {
      assert InSlotRange(false, XRegister(false, n), maxItemsBad);
      assert InSlotRange(false, YRegister(false, n), maxItemsBad);
    }
  }

  /** Third part: good slot 33 (= max_items) and bad slot 15's X register are left as they were. */
  lemma CellResetKeepsLastSlot(b: Bus, maxItems: int, maxItemsBad: int)
    requires AllAck(b)
    requires maxItems == 33 && maxItemsBad == 15
    ensures var r := AfterReset(b, maxItems, maxItemsBad);
      && (XRegister(true, 33) in r.registers <==> XRegister(true, 33) in b.registers)
      && (YRegister(true, 33) in r.registers <==> YRegister(true, 33) in b.registers)
      && (XRegister(true, 33) in b.registers ==>
            r.registers[XRegister(true, 33)] == b.registers[XRegister(true, 33)])
      && (YRegister(true, 33) in b.registers ==>
            r.registers[YRegister(true, 33)] == b.registers[YRegister(true, 33)])
      && (XRegister(false, 15) in r.registers <==> XRegister(false, 15) in b.registers)
      && (XRegister(false, 15) in b.registers ==>
            r.registers[XRegister(false, 15)] == b.registers[XRegister(false, 15)])
  {
    ResetAcked(b, maxItems, maxItemsBad);
    assert !InSlotRange(true, XRegister(true, 33), maxItems);
    assert !InSlotRange(true, YRegister(true, 33), maxItems);
    assert !InSlotRange(false, XRegister(false, 15), maxItemsBad);
  }

  // The operations

  method SetModbusBit(client: ModbusClient, address: int, command: bool)
    modifies client
    ensures client.State() == AfterWriteCoil(old(client.State()), address, command)
  {
    var reply := client.WriteCoil(address, command);
    if reply.Raised? || reply.ErrorFlag? || reply.ExceptionReply? {
      return;
    }
  }

  method SendTargetCount(client: ModbusClient, targetCount: int, good: bool := true)
    modifies client
    ensures client.State() == AfterTargetCount(old(client.State()), targetCount, good)
  {
    if targetCount < 0 || targetCount > MAX_TARGET_COUNT {
      return;
    }
    var register := if good then GOOD_COUNT_REGISTER else BAD_COUNT_REGISTER;
    var reply := client.WriteRegister(register, targetCount);
  }

  method SendModbusCoords(client: ModbusClient, targetNum: int, xCoord: real, yCoord: real,
                          good: bool := true)
    modifies client
    ensures client.State() == AfterCoords(old(client.State()), targetNum, xCoord, yCoord, good)
  {
    if targetNum == 0 {
      return;
    }
    var start := if good then GOOD_BASE else BAD_BASE;
    var xRegister := start + 2 * (targetNum - 1);
    var yRegister := xRegister + 1;
    var xValue := ToInt16AndScale(xCoord);
    var yValue := ToInt16AndScale(yCoord);
    var reply := client.WriteRegister(xRegister, xValue);
    if reply.Raised? || reply.ErrorFlag? || reply.ExceptionReply? {
      return;
    }
    reply := client.WriteRegister(yRegister, yValue);
  }

  method Conveyor(client: ModbusClient, status: string)
    modifies client
    ensures client.State() == AfterConveyor(old(client.State()), status)
  {
    if status == "on" {
      SetModbusBit(client, CONVEYOR_ON, true);
    } else if status == "off" {
      SetModbusBit(client, CONVEYOR_ON, false);
    }
  }

  method ResetBits(client: ModbusClient, maxItems: int := 33, maxItemsBad: int := 15)
    modifies client
    ensures client.State() == AfterReset(old(client.State()), maxItems, maxItemsBad)
  {
    SetModbusBit(client, START_COMMAND, false);
    SetModbusBit(client, CONVEYOR_ON, false);
    SendTargetCount(client, maxItems);
    ZeroSlotLoop(client, maxItems, true);
    SendTargetCount(client, maxItemsBad, false);
    ZeroSlotLoop(client, maxItemsBad, false);
  }

  /** One of `reset_bits`'s loops: `send_modbus_coords(client, i, 0, 0, good)` for i in range(k). */
  method ZeroSlotLoop(client: ModbusClient, k: int, good: bool)
    modifies client
    ensures client.State() == ZeroSlots(old(client.State()), k, good)
  {
    ghost var b := client.State();
    var i := 0;
    while i < k
      invariant 0 <= i && (i <= k || i == 0)
      invariant client.State() == ZeroSlots(b, i, good)
    {
      SendModbusCoords(client, i, 0.0, 0.0, good);
      i := i + 1;
    }
  }

  method CheckRobotCycleComplete(client: ModbusClient) returns (status: Option<int>)
    modifies client
    ensures status == CycleStatus(old(client.State()))
    ensures client.State() == AfterReadInput(old(client.State()), ROBOT_CYCLE_COMPLETE, 1)
  {
    var result := client.ReadInputRegisters(ROBOT_CYCLE_COMPLETE, 1);
    match result
    case Registers(values) =>
      if |values| == 0 {
        // result.registers[0] raises; the handler answers None
        return None;
      }
      var registerValue := values[0];
      if registerValue & 0x1 != 0 {
        return Some(1);
      } else {
        return Some(0);
      }
    case _ =>
      return None;
  }
}
