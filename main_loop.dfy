/**
 * The control loop of the cell: run the conveyor until an item reaches the
 * ready line, stop it, re-capture, keep the items inside the robot's reach,
 * send their counts and coordinates, pulse START, wait for the robot, reset,
 * and repeat until a pallet is full.
 *
 * The camera is a finite sequence of captures (each already reduced to the
 * contours of its two colour masks, with whether ESC was pressed while it was
 * shown); the homography projection is a parameter. The loop is a method
 * proved to end in the state `Session` computes; the lemmas state what the
 * session and each of its steps promise.
 */
module MainLoop {
  import opened Wrappers
  import opened Transport
  import opened ModbusFxns
  import opened CameraFxns
  import opened Selection

  const MAX_ITEMS := 33
  const MAX_ITEMS_BAD := 15
  const TOTAL_GOOD_SPOTS := 15
  const TOTAL_BAD_SPOTS := 5

  // The binding reach rectangle, checked before anything is sent to the robot
  const TOP_Y_BOUND := 185.0
  const BOTTOM_Y_BOUND := 30.0
  const LEFT_BOUND := 350.0
  const RIGHT_BOUND := 750.0

  /** One frame, as the contours of its good (white) and bad (orange) masks. */
  datatype Capture = Capture(good: seq<Contour>, bad: seq<Contour>, escape: bool)

  datatype Totals = Totals(items: int, good: int, bad: int)

  /** The two "items the robot can't reach" figures printed in a dispatch. */
  datatype Unreachable = Unreachable(good: int, bad: int)

  /** The loop's variables, with the bus and the next capture to take. */
  datatype Cycle = Cycle(bus: Bus, next: nat, totals: Totals, escaped: bool, reports: seq<Unreachable>)

  datatype Outcome = Aborted | Finished(totals: Totals, reports: seq<Unreachable>)

  /** The loop condition: no limit reached yet. */
  predicate KeepGoing(t: Totals)
    ensures t.items == t.good + t.bad ==>
      (KeepGoing(t) <==> t.good < TOTAL_GOOD_SPOTS && t.bad < TOTAL_BAD_SPOTS)
  {
    && t.items < TOTAL_GOOD_SPOTS + TOTAL_BAD_SPOTS
    && t.good < TOTAL_GOOD_SPOTS
    && t.bad < TOTAL_BAD_SPOTS
  }

  /** An item is sent to the robot only inside this rectangle, all bounds strict. */
  predicate InBounds(p: Point)
    ensures InBounds(p) ==> ZoneOf(p) == Reachable && p.x > LEFT_BOUND && p.y > BOTTOM_Y_BOUND
  {
    p.y < TOP_Y_BOUND && p.y > BOTTOM_Y_BOUND && p.x > LEFT_BOUND && p.x < RIGHT_BOUND
  }

  lemma BoundsExamples()
    ensures InBounds(Point(351.0, 100.0)) && !InBounds(Point(349.0, 100.0))
    ensures !InBounds(Point(350.0, 100.0)) && !InBounds(Point(750.0, 100.0))
    ensures !InBounds(Point(400.0, 30.0)) && !InBounds(Point(400.0, 185.0))
  {
  }

  /**
   * The binding rectangle lies inside the display's "reachable" zone, but not
   * the other way round: the display zoning never decides what is sent.
   */
  lemma BoundsInsideDisplayZone(p: Point)
    ensures InBounds(p) ==> ZoneOf(p) == Reachable
    ensures ZoneOf(Point(330.0, 100.0)) == Reachable && !InBounds(Point(330.0, 100.0))
  {
  }

  function WorldCoords(project: Point -> Point, imgCoords: seq<Point>, good: bool): seq<Point> {
    seq(|imgCoords|, i requires 0 <= i < |imgCoords| => ConvertPixToWorld(project, imgCoords[i], good))
  }

  /**
   * Each world coordinate is its detection's projection moved by one offset
   * shared by the whole class, so the class keeps its items' projected
   * spacing: two items of one class are as far apart in the world as their
   * projections are.
   */
  lemma WorldCoordsTranslate(project: Point -> Point, imgCoords: seq<Point>, good: bool)
    ensures var w := WorldCoords(project, imgCoords, good);
      && |w| == |imgCoords|
      && (forall i :: 0 <= i < |w| ==>
            w[i] == Point(project(imgCoords[i]).x - (if good then 15.0 else 17.0),
                          project(imgCoords[i]).y + (if good then 8.0 else 7.0)))
      && (forall i, j :: 0 <= i < |w| && 0 <= j < |w| ==>
            w[i].x - w[j].x == project(imgCoords[i]).x - project(imgCoords[j]).x
            && w[i].y - w[j].y == project(imgCoords[i]).y - project(imgCoords[j]).y)
  {
  }

  /** The world coordinates of every detected item, in detection order. */
  method ConvertAll(imgCoords: seq<Point>, project: Point -> Point, good: bool) returns (worldCoords: seq<Point>)
    ensures worldCoords == WorldCoords(project, imgCoords, good)
  {
    worldCoords := [];
    for i := 0 to |imgCoords|
      invariant |worldCoords| == i
      invariant forall k :: 0 <= k < i ==> worldCoords[k] == ConvertPixToWorld(project, imgCoords[k], good)
    {
      worldCoords := worldCoords + [ConvertPixToWorld(project, imgCoords[i], good)];
    }
  }

  /** The world coordinates of the items whose pixel position is in bounds. */
  function ToRobot(imgCoords: seq<Point>, worldCoords: seq<Point>): (r: seq<Point>)
    requires |imgCoords| == |worldCoords|
    ensures |r| <= |imgCoords|
  {
    if |imgCoords| == 0 then []
    else
      var n := |imgCoords| - 1;
      ToRobot(imgCoords[..n], worldCoords[..n]) + (if InBounds(imgCoords[n]) then [worldCoords[n]] else [])
  }

  /**
   * The dispatched list is the order-preserving selection of the world
   * coordinates whose pixel is in bounds: one entry per in-bounds item.
   */
  lemma {:induction false} ToRobotIsBoundsSelection(imgCoords: seq<Point>, worldCoords: seq<Point>)
    requires |imgCoords| == |worldCoords|
    ensures var idx := Kept(InBounds, imgCoords);
      && |ToRobot(imgCoords, worldCoords)| == |idx|
      && forall j :: 0 <= j < |idx| ==> ToRobot(imgCoords, worldCoords)[j] == worldCoords[idx[j]]
  {
    if |imgCoords| > 0 {
      var n := |imgCoords| - 1;
      ToRobotIsBoundsSelection(imgCoords[..n], worldCoords[..n]);
      assert forall i :: 0 <= i < n ==> imgCoords[..n][i] == imgCoords[i];
    }
  }

  method FilterReachable(imgCoords: seq<Point>, worldCoords: seq<Point>) returns (toRobotCoords: seq<Point>)
    requires |imgCoords| == |worldCoords|
    ensures toRobotCoords == ToRobot(imgCoords, worldCoords)
  {
    toRobotCoords := [];
    for i := 0 to |imgCoords|
      invariant toRobotCoords == ToRobot(imgCoords[..i], worldCoords[..i])
    {
      assert imgCoords[..i + 1][..i] == imgCoords[..i];
      assert worldCoords[..i + 1][..i] == worldCoords[..i];
      if imgCoords[i].y < TOP_Y_BOUND && imgCoords[i].y > BOTTOM_Y_BOUND
         && imgCoords[i].x > LEFT_BOUND && imgCoords[i].x < RIGHT_BOUND
      {
        toRobotCoords := toRobotCoords + [worldCoords[i]];
      }
    }
    assert imgCoords[..|imgCoords|] == imgCoords;
    assert worldCoords[..|worldCoords|] == worldCoords;
  }

  /** What is sent for one class of one capture. */
  function Dispatched(contours: seq<Contour>, project: Point -> Point, good: bool): seq<Point> {
    var imgCoords := Detections(contours);
    ToRobot(imgCoords, WorldCoords(project, imgCoords, good))
  }

  // The dispatch: counts, slots, START pulse

  /** `send_modbus_coords(client, i + 1, ...)` for i in range(k). */
  function SendSlots(b: Bus, coords: seq<Point>, k: nat, good: bool): Bus
    requires k <= |coords|
  {
    if k == 0 then b
    else AfterCoords(SendSlots(b, coords, k - 1, good), k, coords[k - 1].x, coords[k - 1].y, good)
  }

  /** The requests of those writes when all are acknowledged: X then Y of slot 1, 2, ... */
  function SlotRequests(coords: seq<Point>, k: nat, good: bool): seq<Request>
    requires k <= |coords|
  {
    if k == 0 then []
    else SlotRequests(coords, k - 1, good)
         + [RegisterWrite(XRegister(good, k), ToInt16AndScale(coords[k - 1].x)),
            RegisterWrite(YRegister(good, k), ToInt16AndScale(coords[k - 1].y))]
  }

  function AfterDispatch(b: Bus, toRobotCoords: seq<Point>, toRobotCoordsBad: seq<Point>): Bus {
    var b1 := AfterTargetCount(b, |toRobotCoords|, true);
    var b2 := SendSlots(b1, toRobotCoords, |toRobotCoords|, true);
    var b3 := AfterTargetCount(b2, |toRobotCoordsBad|, false);
    var b4 := SendSlots(b3, toRobotCoordsBad, |toRobotCoordsBad|, false);
    AfterWriteCoil(AfterWriteCoil(b4, START_COMMAND, true), START_COMMAND, false)
  }

  /** The dispatch's requests when all are acknowledged and both counts are valid. */
  function DispatchRequests(toRobotCoords: seq<Point>, toRobotCoordsBad: seq<Point>): seq<Request> {
    [RegisterWrite(GOOD_COUNT_REGISTER, |toRobotCoords|)]
    + SlotRequests(toRobotCoords, |toRobotCoords|, true)
    + [RegisterWrite(BAD_COUNT_REGISTER, |toRobotCoordsBad|)]
    + SlotRequests(toRobotCoordsBad, |toRobotCoordsBad|, false)
    + [CoilWrite(START_COMMAND, true), CoilWrite(START_COMMAND, false)]
  }

  /** Slots are numbered from 1: every slot write lands in [base, base + 2k), never on slot 0's pair. */
  lemma {:induction false} SlotRequestsStartAtSlotOne(coords: seq<Point>, k: nat, good: bool)
    requires k <= |coords|
    ensures |SlotRequests(coords, k, good)| == 2 * k
    ensures forall i :: 0 <= i < 2 * k ==>
      SlotRequests(coords, k, good)[i].RegisterWrite?
      && SlotBase(good) <= SlotRequests(coords, k, good)[i].address < SlotBase(good) + 2 * k
  {
    if k > 0 {
      SlotRequestsStartAtSlotOne(coords, k - 1, good);
    }
  }

  lemma {:induction false} SendSlotsAcked(b: Bus, coords: seq<Point>, k: nat, good: bool)
    requires AllAck(b) && k <= |coords|
    ensures var r := SendSlots(b, coords, k, good);
      && AllAck(r) && r.coils == b.coils && r.readReplies == b.readReplies
      && r.log == b.log + SlotRequests(coords, k, good)
  {
    if k > 0 {
      SendSlotsAcked(b, coords, k - 1, good);
      var p := SendSlots(b, coords, k - 1, good);
      CoordsErrorContract(p, k, coords[k - 1].x, coords[k - 1].y, good);
    }
  }

  /** Slots 1..k of one class hold the scaled coordinates of items 0..k-1. */
  ghost predicate SlotsHold(regs: map<int, int>, coords: seq<Point>, k: nat, good: bool)
    requires k <= |coords|
  {
    forall n :: 1 <= n <= k ==>
      && XRegister(good, n) in regs && YRegister(good, n) in regs
      && regs[XRegister(good, n)] == ToInt16AndScale(coords[n - 1].x)
      && regs[YRegister(good, n)] == ToInt16AndScale(coords[n - 1].y)
  }

  /** Outside the registers of slots 1..k of one class, `regs` agrees with `before`. */
  ghost predicate SameOutsideSlots(regs: map<int, int>, before: map<int, int>, k: nat, good: bool) {
    forall a :: !(SlotBase(good) <= a < SlotBase(good) + 2 * k) ==>
      (a in regs <==> a in before) && (a in before ==> regs[a] == before[a])
  }

  /** Writing slot k on top of slots 1..k-1 extends both facts to k. */
  lemma WriteNextSlot(p: map<int, int>, before: map<int, int>, coords: seq<Point>, k: nat, good: bool)
    requires 1 <= k <= |coords|
    requires SlotsHold(p, coords, k - 1, good) && SameOutsideSlots(p, before, k - 1, good)
    ensures var r := p[XRegister(good, k) := ToInt16AndScale(coords[k - 1].x)]
                      [YRegister(good, k) := ToInt16AndScale(coords[k - 1].y)];
      SlotsHold(r, coords, k, good) && SameOutsideSlots(r, before, k, good)
  {
    var x, y := XRegister(good, k), YRegister(good, k);
    var r := p[x := ToInt16AndScale(coords[k - 1].x)][y := ToInt16AndScale(coords[k - 1].y)];
    forall n | 1 <= n < k
      ensures XRegister(good, n) in r && YRegister(good, n) in r
      ensures r[XRegister(good, n)] == p[XRegister(good, n)]
      ensures r[YRegister(good, n)] == p[YRegister(good, n)]
    {
      SlotPairsDisjoint(good, n, k);
    }
    forall a | !(SlotBase(good) <= a < SlotBase(good) + 2 * k)
      ensures (a in r <==> a in before) && (a in before ==> r[a] == before[a])
    {
      assert a != x && a != y;
    }
  }

  /** With every write acknowledged, slot n holds the scaled coordinates of item n-1 and nothing else changes. */
  lemma {:induction false} SendSlotsFillSlots(b: Bus, coords: seq<Point>, k: nat, good: bool)
    requires AllAck(b) && k <= |coords|
    ensures var r := SendSlots(b, coords, k, good);
      AllAck(r) && SlotsHold(r.registers, coords, k, good) && SameOutsideSlots(r.registers, b.registers, k, good)
  {
    if k > 0 {
      SendSlotsFillSlots(b, coords, k - 1, good);
      var p := SendSlots(b, coords, k - 1, good);
      AckedSlotRegisters(p, k, coords[k - 1].x, coords[k - 1].y, good);
      WriteNextSlot(p.registers, b.registers, coords, k, good);
    }
  }

  /** An acknowledged slot write sets exactly its X and Y registers. */
  lemma AckedSlotRegisters(b: Bus, n: int, x: real, y: real, good: bool)
    requires AllAck(b) && n != 0
    ensures AllAck(AfterCoords(b, n, x, y, good))
    ensures AfterCoords(b, n, x, y, good).registers
         == b.registers[XRegister(good, n) := ToInt16AndScale(x)][YRegister(good, n) := ToInt16AndScale(y)]
  {
    CoordsErrorContract(b, n, x, y, good);
  }

  /** A slot write requests X, and Y after it when X was acknowledged. */
  lemma SlotWriteLog(b: Bus, n: int, x: real, y: real, good: bool)
    requires n != 0
    ensures var r := AfterCoords(b, n, x, y, good);
      || r.log == b.log + [RegisterWrite(XRegister(good, n), ToInt16AndScale(x))]
      || r.log == b.log + [RegisterWrite(XRegister(good, n), ToInt16AndScale(x)),
                           RegisterWrite(YRegister(good, n), ToInt16AndScale(y))]
  {
  }

  /** Regrouping six concatenated logs; stated once so the dispatch proof need not search for it. */
  lemma SeqAssoc5<T>(a: seq<T>, p: seq<T>, q: seq<T>, u: seq<T>, v: seq<T>, w: seq<T>)
    ensures ((((a + p) + q) + u) + v) + w == a + ((((p + q) + u) + v) + w)
  {
  }

  /** Slot facts survive writes confined to another block of slots that lies above them. */
  lemma SlotsHoldBelow(regs: map<int, int>, before: map<int, int>, coords: seq<Point>, k: nat, good: bool,
                       k2: nat, good2: bool)
    requires k <= |coords| && SlotBase(good) + 2 * k <= SlotBase(good2)
    requires SlotsHold(before, coords, k, good) && SameOutsideSlots(regs, before, k2, good2)
    ensures SlotsHold(regs, coords, k, good)
  {
    forall n | 1 <= n <= k
      ensures XRegister(good, n) in regs && YRegister(good, n) in regs
      ensures regs[XRegister(good, n)] == before[XRegister(good, n)]
      ensures regs[YRegister(good, n)] == before[YRegister(good, n)]
    {
      assert !(SlotBase(good2) <= XRegister(good, n) < SlotBase(good2) + 2 * k2);
      assert !(SlotBase(good2) <= YRegister(good, n) < SlotBase(good2) + 2 * k2);
    }
  }

  /**
   * With every write acknowledged, a dispatch issues: good count, good slots
   * 1..n, bad count, bad slots 1..m, START on, START off.
   */
  lemma DispatchAcked(b: Bus, toRobotCoords: seq<Point>, toRobotCoordsBad: seq<Point>)
    requires AllAck(b) && |toRobotCoords| <= MAX_TARGET_COUNT && |toRobotCoordsBad| <= MAX_TARGET_COUNT
    ensures var r := AfterDispatch(b, toRobotCoords, toRobotCoordsBad);
      && AllAck(r)
      && r.log == b.log + DispatchRequests(toRobotCoords, toRobotCoordsBad)
      && r.coils == b.coils[START_COMMAND := false]
      && r.readReplies == b.readReplies
  {
    DispatchAckedCoils(b, toRobotCoords, toRobotCoordsBad);
    var g, d := toRobotCoords, toRobotCoordsBad;
    var b1 := AfterTargetCount(b, |g|, true);
    TargetCountContract(b, |g|, true);
    SendSlotsAcked(b1, g, |g|, true);
    var b2 := SendSlots(b1, g, |g|, true);
    var b3 := AfterTargetCount(b2, |d|, false);
    TargetCountContract(b2, |d|, false);
    SendSlotsAcked(b3, d, |d|, false);
    var b4 := SendSlots(b3, d, |d|, false);
    var r := AfterWriteCoil(AfterWriteCoil(b4, START_COMMAND, true), START_COMMAND, false);
    var c1, s1 := [RegisterWrite(GOOD_COUNT_REGISTER, |g|)], SlotRequests(g, |g|, true);
    var c2, s2 := [RegisterWrite(BAD_COUNT_REGISTER, |d|)], SlotRequests(d, |d|, false);
    var st := [CoilWrite(START_COMMAND, true), CoilWrite(START_COMMAND, false)];
    assert b1.log == b.log + c1;
    assert b2.log == b1.log + s1;
    assert b3.log == b2.log + c2;
    assert b4.log == b3.log + s2;
    assert r.log == b4.log + st;
    calc {
      r.log;
      (((b.log + c1) + s1) + c2) + s2 + st;
      { SeqAssoc5(b.log, c1, s1, c2, s2, st); }
      b.log + (c1 + s1 + c2 + s2 + st);
    }
  }

  /** With every write acknowledged and valid counts, a dispatch leaves START off and every other coil as it was. */
  lemma DispatchAckedCoils(b: Bus, toRobotCoords: seq<Point>, toRobotCoordsBad: seq<Point>)
    requires AllAck(b) && |toRobotCoords| <= MAX_TARGET_COUNT && |toRobotCoordsBad| <= MAX_TARGET_COUNT
    ensures var r := AfterDispatch(b, toRobotCoords, toRobotCoordsBad);
      && AllAck(r) && r.coils == b.coils[START_COMMAND := false] && r.readReplies == b.readReplies
  {
    var g, d := toRobotCoords, toRobotCoordsBad;
    var b1 := AfterTargetCount(b, |g|, true);
    TargetCountContract(b, |g|, true);
    SendSlotsAcked(b1, g, |g|, true);
    var b2 := SendSlots(b1, g, |g|, true);
    var b3 := AfterTargetCount(b2, |d|, false);
    TargetCountContract(b2, |d|, false);
    SendSlotsAcked(b3, d, |d|, false);
    var b4 := SendSlots(b3, d, |d|, false);
    CoilWriteAcked(b4, START_COMMAND, true);
    CoilWriteAcked(AfterWriteCoil(b4, START_COMMAND, true), START_COMMAND, false);
  }

  /**
   * With every write acknowledged and at most 33 good and 14 bad items, a
   * dispatch leaves both counts and every slot's scaled coordinates in the
   * controller.
   */
  lemma DispatchFillsRegisters(b: Bus, toRobotCoords: seq<Point>, toRobotCoordsBad: seq<Point>)
    requires AllAck(b) && |toRobotCoords| <= 33 && |toRobotCoordsBad| <= 14
    ensures var r := AfterDispatch(b, toRobotCoords, toRobotCoordsBad);
      && GOOD_COUNT_REGISTER in r.registers && BAD_COUNT_REGISTER in r.registers
      && r.registers[GOOD_COUNT_REGISTER] == |toRobotCoords|
      && r.registers[BAD_COUNT_REGISTER] == |toRobotCoordsBad|
      && SlotsHold(r.registers, toRobotCoords, |toRobotCoords|, true)
      && SlotsHold(r.registers, toRobotCoordsBad, |toRobotCoordsBad|, false)
  {
    var g, d := toRobotCoords, toRobotCoordsBad;
    var b1 := AfterTargetCount(b, |g|, true);
    TargetCountContract(b, |g|, true);
    SendSlotsAcked(b1, g, |g|, true);
    SendSlotsFillSlots(b1, g, |g|, true);
    var b2 := SendSlots(b1, g, |g|, true);
    var b3 := AfterTargetCount(b2, |d|, false);
    TargetCountContract(b2, |d|, false);
    SendSlotsAcked(b3, d, |d|, false);
    SendSlotsFillSlots(b3, d, |d|, false);
    var b4 := SendSlots(b3, d, |d|, false);
    assert b3.registers == b2.registers[BAD_COUNT_REGISTER := |d|];
    assert SameOutsideSlots(b3.registers, b2.registers, 15, false);
    SlotsHoldBelow(b3.registers, b2.registers, g, |g|, true, 15, false);
    SlotsHoldBelow(b4.registers, b3.registers, g, |g|, true, |d|, false);
    assert !(SlotBase(true) <= GOOD_COUNT_REGISTER < SlotBase(true) + 2 * |g|);
    assert !(SlotBase(false) <= GOOD_COUNT_REGISTER < SlotBase(false) + 2 * |d|);
    assert !(SlotBase(false) <= BAD_COUNT_REGISTER < SlotBase(false) + 2 * |d|);
  }

  /** With 15 or more bad items, bad slot 15's Y coordinate overwrites the bad count in register 129. */
  lemma BadCountOverwrittenBySlot15(b: Bus, toRobotCoords: seq<Point>, toRobotCoordsBad: seq<Point>)
    requires AllAck(b) && 15 <= |toRobotCoordsBad|
    ensures var r := AfterDispatch(b, toRobotCoords, toRobotCoordsBad);
      BAD_COUNT_REGISTER in r.registers
      && r.registers[BAD_COUNT_REGISTER] == ToInt16AndScale(toRobotCoordsBad[14].y)
  {
    var g, d := toRobotCoords, toRobotCoordsBad;
    var b1 := AfterTargetCount(b, |g|, true);
    SendSlotsAcked(b1, g, |g|, true);
    var b2 := SendSlots(b1, g, |g|, true);
    var b3 := AfterTargetCount(b2, |d|, false);
    SendSlotsAcked(b3, d, |d|, false);
    SendSlotsFillSlots(b3, d, |d|, false);
    BadSlot15IsBadCount();
  }

  // Waiting for the robot

  /** Poll the cycle-complete register until it answers anything but 0. */
  function AwaitRobot(b: Bus): (r: Bus)
    ensures r.registers == b.registers && r.coils == b.coils && r.writeReplies == b.writeReplies
    ensures |b.log| < |r.log| && r.log[..|b.log|] == b.log
    ensures forall i :: |b.log| <= i < |r.log| ==> r.log[i] == InputRead(ROBOT_CYCLE_COMPLETE, 1)
    decreases |b.readReplies|
  {
    var b1 := AfterReadInput(b, ROBOT_CYCLE_COMPLETE, 1);
    if CycleStatus(b) == Some(0) then AwaitRobot(b1) else b1
  }

  /** A read error (None) ends the wait just as a completed cycle does. */
  lemma WaitEndsOnErrorOrCompletion(b: Bus)
    ensures CycleStatus(b) != Some(0) ==> AwaitRobot(b) == AfterReadInput(b, ROBOT_CYCLE_COMPLETE, 1)
    ensures CycleStatus(b) == Some(0) ==>
              AwaitRobot(b) == AwaitRobot(AfterReadInput(b, ROBOT_CYCLE_COMPLETE, 1))
  {
  }

  method Dispatch(client: ModbusClient, toRobotCoords: seq<Point>, toRobotCoordsBad: seq<Point>)
    modifies client
    ensures client.State() == AfterDispatch(old(client.State()), toRobotCoords, toRobotCoordsBad)
  {
    var numReachable := |toRobotCoords|;
    var numReachableBad := |toRobotCoordsBad|;
    SendTargetCount(client, numReachable);
    ghost var b1 := client.State();
    for i := 0 to numReachable
      invariant client.State() == SendSlots(b1, toRobotCoords, i, true)
    {
      SendModbusCoords(client, i + 1, toRobotCoords[i].x, toRobotCoords[i].y);
    }
    SendTargetCount(client, numReachableBad, false);
    ghost var b3 := client.State();
    for i := 0 to numReachableBad
      invariant client.State() == SendSlots(b3, toRobotCoordsBad, i, false)
    {
      SendModbusCoords(client, i + 1, toRobotCoordsBad[i].x, toRobotCoordsBad[i].y, false);
    }
    SetModbusBit(client, START_COMMAND, true);
    SetModbusBit(client, START_COMMAND, false);
  }

  method WaitForRobot(client: ModbusClient)
    modifies client
    ensures client.State() == AwaitRobot(old(client.State()))
  {
    ghost var target := AwaitRobot(client.State());
    var status := CheckRobotCycleComplete(client);
    while status == Some(0)
      invariant status == Some(0) ==> AwaitRobot(client.State()) == target
      invariant status != Some(0) ==> client.State() == target
      decreases |client.readReplies| + (if status == Some(0) then 1 else 0)
    {
      status := CheckRobotCycleComplete(client);
    }
  }

  // One pass of the loop and the whole run

  /**
   * The "can't reach" figures printed after filtering: both are computed
   * from the good items, as main.py writes them.
   */
  function UnreachableReport(contours: seq<Contour>, project: Point -> Point): (r: Unreachable)
    ensures r.good == r.bad
    ensures 0 <= r.good <= |Detections(contours)|
    ensures r.good == 0 <==> |Dispatched(contours, project, true)| == |Detections(contours)|
  {
    var numItems := |Detections(contours)|;
    var numReachable := |Dispatched(contours, project, true)|;
    Unreachable(numItems - numReachable, numItems - numReachable)
  }

  /**
   * The pick-up half of a pass, once the refreshed capture is in: dispatch the
   * reachable items, wait for the robot, reset the registers and count.
   */
  function PickUpCycle(c: Cycle, refresh: Capture, project: Point -> Point): Cycle {
    var toRobotCoords := Dispatched(refresh.good, project, true);
    var toRobotCoordsBad := Dispatched(refresh.bad, project, false);
    var good := c.totals.good + |toRobotCoords|;
    var bad := c.totals.bad + |toRobotCoordsBad|;
    var b := AwaitRobot(AfterDispatch(c.bus, toRobotCoords, toRobotCoordsBad));
    Cycle(AfterReset(b, MAX_ITEMS, MAX_ITEMS_BAD), c.next, Totals(good + bad, good, bad), false,
          c.reports + [UnreachableReport(refresh.good, project)])
  }

  /** One pass of the loop body, from "conveyor on" to the counters' update. */
  function Step(c: Cycle, captures: seq<Capture>, project: Point -> Point): (r: Cycle)
    requires c.next < |captures|
    ensures c.next < r.next <= |captures|
  {
    var b1 := AfterConveyor(c.bus, "on");
    var shot := captures[c.next];
    if shot.escape then c.(bus := b1, next := c.next + 1, escaped := true)
    else if !Ready(Detections(shot.good), Detections(shot.bad)) then c.(bus := b1, next := c.next + 1)
    else
      var b2 := AfterConveyor(b1, "off");
      if c.next + 1 == |captures| then c.(bus := b2, next := c.next + 1)
      else
        var refresh := captures[c.next + 1];
        if refresh.escape then c.(bus := b2, next := c.next + 2, escaped := true)
        else
          PickUpCycle(c.(bus := b2, next := c.next + 2), refresh, project)
  }

  /** The branches of one pass that end it before the pick-up, in main.py's order. */
  lemma StepCases(c: Cycle, captures: seq<Capture>, project: Point -> Point)
    requires c.next < |captures|
    ensures var shot := captures[c.next];
      var b1 := AfterConveyor(c.bus, "on");
      var b2 := AfterConveyor(b1, "off");
      var ready := Ready(Detections(shot.good), Detections(shot.bad));
      && (shot.escape ==> Step(c, captures, project) == c.(bus := b1, next := c.next + 1, escaped := true))
      && (!shot.escape && !ready ==> Step(c, captures, project) == c.(bus := b1, next := c.next + 1))
      && (!shot.escape && ready && c.next + 1 == |captures| ==>
            Step(c, captures, project) == c.(bus := b2, next := c.next + 1))
      && (!shot.escape && ready && c.next + 1 < |captures| && captures[c.next + 1].escape ==>
            Step(c, captures, project) == c.(bus := b2, next := c.next + 2, escaped := true))
  {
    var shot := captures[c.next];
    if shot.escape {
      StepEscapeCase(c, captures, project);
    } else if !Ready(Detections(shot.good), Detections(shot.bad)) {
      StepNotReadyCase(c, captures, project);
    } else if c.next + 1 == |captures| {
      StepLastCaptureCase(c, captures, project);
    } else if captures[c.next + 1].escape {
      StepRefreshEscapeCase(c, captures, project);
    }
  }

  lemma StepEscapeCase(c: Cycle, captures: seq<Capture>, project: Point -> Point)
    requires c.next < |captures| && captures[c.next].escape
    ensures Step(c, captures, project) == c.(bus := AfterConveyor(c.bus, "on"), next := c.next + 1, escaped := true)
  {
  }

  lemma StepNotReadyCase(c: Cycle, captures: seq<Capture>, project: Point -> Point)
    requires c.next < |captures| && !captures[c.next].escape
    requires !Ready(Detections(captures[c.next].good), Detections(captures[c.next].bad))
    ensures Step(c, captures, project) == c.(bus := AfterConveyor(c.bus, "on"), next := c.next + 1)
  {
  }

  lemma StepLastCaptureCase(c: Cycle, captures: seq<Capture>, project: Point -> Point)
    requires c.next + 1 == |captures| && !captures[c.next].escape
    requires Ready(Detections(captures[c.next].good), Detections(captures[c.next].bad))
    ensures Step(c, captures, project)
         == c.(bus := AfterConveyor(AfterConveyor(c.bus, "on"), "off"), next := c.next + 1)
  {
  }

  lemma StepRefreshEscapeCase(c: Cycle, captures: seq<Capture>, project: Point -> Point)
    requires c.next + 1 < |captures| && !captures[c.next].escape
    requires Ready(Detections(captures[c.next].good), Detections(captures[c.next].bad))
    requires captures[c.next + 1].escape
    ensures Step(c, captures, project)
         == c.(bus := AfterConveyor(AfterConveyor(c.bus, "on"), "off"), next := c.next + 2, escaped := true)
  {
  }

  /** A pass that sees items ready and a refreshed capture without ESC goes on to the pick-up. */
  lemma StepPickUpCase(c: Cycle, captures: seq<Capture>, project: Point -> Point)
    requires c.next + 1 < |captures|
    requires !captures[c.next].escape
    requires Ready(Detections(captures[c.next].good), Detections(captures[c.next].bad))
    requires !captures[c.next + 1].escape
    ensures Step(c, captures, project)
         == PickUpCycle(c.(bus := AfterConveyor(AfterConveyor(c.bus, "on"), "off"), next := c.next + 2),
                        captures[c.next + 1], project)
  {
  }

  function Run(c: Cycle, captures: seq<Capture>, project: Point -> Point): (r: Cycle)
    ensures c.next <= r.next
    ensures c.next <= |captures| ==> r.next <= |captures|
    ensures c.escaped || !KeepGoing(c.totals) ==> r == c
    decreases |captures| - c.next
  {
    if c.escaped || c.next >= |captures| || !KeepGoing(c.totals) then c
    else Run(Step(c, captures, project), captures, project)
  }

  /**
   * ESC on the conveyor capture ends the loop there: the pass's only request
   * is the conveyor-on write, the totals and reports are kept, and the
   * session's closing reset follows.
   */
  lemma EscapeEndsRun(c: Cycle, captures: seq<Capture>, project: Point -> Point)
    requires c.next < |captures| && !c.escaped && KeepGoing(c.totals)
    requires captures[c.next].escape
    ensures var r := Run(c, captures, project);
      && r.bus.log == c.bus.log + [CoilWrite(CONVEYOR_ON, true)]
      && r.bus.registers == c.bus.registers
      && r.totals == c.totals && r.reports == c.reports
      && r.escaped && r.next == c.next + 1
  {
    StepEscapeCase(c, captures, project);
  }

  /** The whole program: the start-up check, the initial reset, the loop and the final reset. */
  function Session(b: Bus, captures: seq<Capture>, project: Point -> Point): (Outcome, Bus) {
    var b1 := AfterReadInput(b, ROBOT_CYCLE_COMPLETE, 1);
    if CycleStatus(b) == Some(0) then (Aborted, b1)
    else
      var last := Run(Cycle(AfterReset(b1, MAX_ITEMS, MAX_ITEMS_BAD), 0, Totals(0, 0, 0), false, []),
                      captures, project);
      (Finished(last.totals, last.reports), AfterReset(last.bus, MAX_ITEMS, MAX_ITEMS_BAD))
  }

  // What a pick-up, a pass, a run and a session promise

  /**
   * A pick-up adds exactly the in-bounds detections of the refreshed capture
   * to each class's total (no capping at the pallet size), sets the item
   * total to the sum of the two, and appends one report.
   */
  lemma PickUpCounts(c: Cycle, refresh: Capture, project: Point -> Point)
    ensures var r := PickUpCycle(c, refresh, project);
      && r.totals.good == c.totals.good + |Kept(InBounds, Detections(refresh.good))|
      && r.totals.bad == c.totals.bad + |Kept(InBounds, Detections(refresh.bad))|
      && r.totals.items == r.totals.good + r.totals.bad
      && r.next == c.next && !r.escaped
      && r.reports == c.reports + [UnreachableReport(refresh.good, project)]
  {
    var g, d := Detections(refresh.good), Detections(refresh.bad);
    ToRobotIsBoundsSelection(g, WorldCoords(project, g, true));
    ToRobotIsBoundsSelection(d, WorldCoords(project, d, false));
  }

  /**
   * Both printed "can't reach" figures are the number of good detections
   * outside the reach rectangle; the bad detections never enter them.
   */
  lemma ReportRepeatsGoodFigure(contours: seq<Contour>, project: Point -> Point)
    ensures var r := UnreachableReport(contours, project);
      && r.good == r.bad
      && r.good == |Detections(contours)| - |Kept(InBounds, Detections(contours))|
      && 0 <= r.good
  {
    var g := Detections(contours);
    ToRobotIsBoundsSelection(g, WorldCoords(project, g, true));
  }

  /** A pass whose capture shows nothing at the ready line only switches the conveyor on. */
  lemma StepIdlePass(c: Cycle, captures: seq<Capture>, project: Point -> Point)
    requires c.next < |captures| && !captures[c.next].escape
    requires !Ready(Detections(captures[c.next].good), Detections(captures[c.next].bad))
    ensures var r := Step(c, captures, project);
      && r.bus.log == c.bus.log + [CoilWrite(CONVEYOR_ON, true)]
      && r.bus.registers == c.bus.registers
      && r.totals == c.totals && r.reports == c.reports
      && r.next == c.next + 1 && r.escaped == c.escaped
  {
    StepNotReadyCase(c, captures, project);
  }

  /**
   * Over one pass, each class's total never decreases, the item total is the
   * sum of the two unless the pass changed nothing, and reports are only
   * appended, each with its two figures equal.
   */
  lemma StepTotals(c: Cycle, captures: seq<Capture>, project: Point -> Point)
    requires c.next < |captures|
    ensures var r := Step(c, captures, project);
      && c.totals.good <= r.totals.good && c.totals.bad <= r.totals.bad
      && (r.totals == c.totals || r.totals.items == r.totals.good + r.totals.bad)
      && |c.reports| <= |r.reports| && r.reports[..|c.reports|] == c.reports
      && (forall i :: |c.reports| <= i < |r.reports| ==> r.reports[i].good == r.reports[i].bad)
  {
    var shot := captures[c.next];
    if shot.escape {
      StepEscapeCase(c, captures, project);
    } else if !Ready(Detections(shot.good), Detections(shot.bad)) {
      StepNotReadyCase(c, captures, project);
    } else if c.next + 1 == |captures| {
      StepLastCaptureCase(c, captures, project);
    } else if captures[c.next + 1].escape {
      StepRefreshEscapeCase(c, captures, project);
    } else {
      StepPickUpCase(c, captures, project);
      var c' := c.(bus := AfterConveyor(AfterConveyor(c.bus, "on"), "off"), next := c.next + 2);
      PickUpCounts(c', captures[c.next + 1], project);
      ghost var p := PickUpCycle(c', captures[c.next + 1], project);
      assert p.totals.items == p.totals.good + p.totals.bad && p.reports[..|c.reports|] == c.reports;
    }
  }

  /** A run stops only on ESC, when the captures run out, or when a limit is reached. */
  lemma {:induction false} RunStopsOnlyAtLimitEscapeOrEnd(c: Cycle, captures: seq<Capture>, project: Point -> Point)
    ensures var r := Run(c, captures, project);
      r.escaped || |captures| <= r.next || !KeepGoing(r.totals)
    decreases |captures| - c.next
  {
    if !(c.escaped || c.next >= |captures| || !KeepGoing(c.totals)) {
      RunStopsOnlyAtLimitEscapeOrEnd(Step(c, captures, project), captures, project);
    }
  }

  /**
   * Over a run, the class totals never decrease, the item total stays the
   * sum of the two, and the reports grow by appending only, each with its
   * two figures equal.
   */
  lemma {:induction false} RunTotals(c: Cycle, captures: seq<Capture>, project: Point -> Point)
    requires c.totals.items == c.totals.good + c.totals.bad
    ensures var r := Run(c, captures, project);
      && c.totals.good <= r.totals.good && c.totals.bad <= r.totals.bad
      && r.totals.items == r.totals.good + r.totals.bad
      && |c.reports| <= |r.reports| && r.reports[..|c.reports|] == c.reports
      && (forall i :: |c.reports| <= i < |r.reports| ==> r.reports[i].good == r.reports[i].bad)
    decreases |captures| - c.next
  {
    if !(c.escaped || c.next >= |captures| || !KeepGoing(c.totals)) {
      var s := Step(c, captures, project);
      StepTotals(c, captures, project);
      RunTotals(s, captures, project);
      assert Run(c, captures, project) == Run(s, captures, project);
      var r := Run(s, captures, project);
      assert r.reports[..|c.reports|] == r.reports[..|s.reports|][..|c.reports|];
      forall i | |c.reports| <= i < |s.reports|
        ensures r.reports[i].good == r.reports[i].bad
      {
        assert r.reports[i] == r.reports[..|s.reports|][i] == s.reports[i];
      }
    }
  }

  /**
   * The session aborts exactly when the start-up read answers 0; then it
   * has read register 31 once and written nothing. A failed read does not
   * abort.
   */
  lemma SessionAbortsOnlyOnZero(b: Bus, captures: seq<Capture>, project: Point -> Point)
    ensures var (outcome, r) := Session(b, captures, project);
      && (outcome == Aborted <==> CycleStatus(b) == Some(0))
      && (outcome == Aborted ==>
            r.log == b.log + [InputRead(ROBOT_CYCLE_COMPLETE, 1)]
            && r.registers == b.registers && r.coils == b.coils)
  {
  }

  /** A finished session's totals add up, and each report repeats its good figure. */
  lemma SessionTotals(b: Bus, captures: seq<Capture>, project: Point -> Point)
    ensures var (outcome, r) := Session(b, captures, project);
      outcome.Finished? ==>
        && outcome.totals.items == outcome.totals.good + outcome.totals.bad
        && 0 <= outcome.totals.good && 0 <= outcome.totals.bad
        && (forall i :: 0 <= i < |outcome.reports| ==> outcome.reports[i].good == outcome.reports[i].bad)
  {
    if CycleStatus(b) != Some(0) {
      var b1 := AfterReadInput(b, ROBOT_CYCLE_COMPLETE, 1);
      var c := Cycle(AfterReset(b1, MAX_ITEMS, MAX_ITEMS_BAD), 0, Totals(0, 0, 0), false, []);
      RunTotals(c, captures, project);
    }
  }

  /** Acknowledged writes stay acknowledged through a dispatch, whatever the counts. */
  lemma DispatchKeepsAllAck(b: Bus, toRobotCoords: seq<Point>, toRobotCoordsBad: seq<Point>)
    requires AllAck(b)
    ensures AllAck(AfterDispatch(b, toRobotCoords, toRobotCoordsBad))
  {
    var g, d := toRobotCoords, toRobotCoordsBad;
    var b1 := AfterTargetCount(b, |g|, true);
    TargetCountContract(b, |g|, true);
    SendSlotsAcked(b1, g, |g|, true);
    var b2 := SendSlots(b1, g, |g|, true);
    var b3 := AfterTargetCount(b2, |d|, false);
    TargetCountContract(b2, |d|, false);
    SendSlotsAcked(b3, d, |d|, false);
  }

  /**
   * With every write acknowledged and both counts valid, a pick-up's
   * requests begin with the dispatch's (counts, slots, START pulse) followed
   * by the first poll of register 31; the reset's writes come after.
   */
  lemma PickUpOrder(c: Cycle, refresh: Capture, project: Point -> Point)
    requires AllAck(c.bus)
    requires |Dispatched(refresh.good, project, true)| <= MAX_TARGET_COUNT
    requires |Dispatched(refresh.bad, project, false)| <= MAX_TARGET_COUNT
    ensures var r := PickUpCycle(c, refresh, project);
      && AllAck(r.bus)
      && c.bus.log + DispatchRequests(Dispatched(refresh.good, project, true), Dispatched(refresh.bad, project, false))
         + [InputRead(ROBOT_CYCLE_COMPLETE, 1)] <= r.bus.log
  {
    var g, d := Dispatched(refresh.good, project, true), Dispatched(refresh.bad, project, false);
    var b1 := AfterDispatch(c.bus, g, d);
    DispatchAcked(c.bus, g, d);
    var b2 := AwaitRobot(b1);
    assert b2.log[|b1.log|] == InputRead(ROBOT_CYCLE_COMPLETE, 1);
    assert b1.log + [InputRead(ROBOT_CYCLE_COMPLETE, 1)] <= b2.log;
    ResetAcked(b2, MAX_ITEMS, MAX_ITEMS_BAD);
  }

  /**
   * A pass that picks up, with every write acknowledged and valid counts,
   * switches the conveyor on, then off, and only then sends the dispatch and
   * polls the robot.
   */
  lemma StepPickUpOrder(c: Cycle, captures: seq<Capture>, project: Point -> Point)
    requires c.next + 1 < |captures| && AllAck(c.bus)
    requires !captures[c.next].escape
    requires Ready(Detections(captures[c.next].good), Detections(captures[c.next].bad))
    requires !captures[c.next + 1].escape
    requires |Dispatched(captures[c.next + 1].good, project, true)| <= MAX_TARGET_COUNT
    requires |Dispatched(captures[c.next + 1].bad, project, false)| <= MAX_TARGET_COUNT
    ensures var refresh := captures[c.next + 1];
      c.bus.log + [CoilWrite(CONVEYOR_ON, true), CoilWrite(CONVEYOR_ON, false)]
      + DispatchRequests(Dispatched(refresh.good, project, true), Dispatched(refresh.bad, project, false))
      + [InputRead(ROBOT_CYCLE_COMPLETE, 1)] <= Step(c, captures, project).bus.log
  {
    StepPickUpCase(c, captures, project);
    var b2 := AfterConveyor(AfterConveyor(c.bus, "on"), "off");
    assert b2.log == c.bus.log + [CoilWrite(CONVEYOR_ON, true), CoilWrite(CONVEYOR_ON, false)];
    PickUpOrder(c.(bus := b2, next := c.next + 2), captures[c.next + 1], project);
  }

  // The order of a dispatch whatever the robot replies

  /** Every request is a register write into the registers of slots 1..k of one class. */
  ghost predicate SlotWrites(reqs: seq<Request>, k: int, good: bool) {
    forall i :: 0 <= i < |reqs| ==>
      reqs[i].RegisterWrite? && SlotBase(good) <= reqs[i].address < SlotBase(good) + 2 * k
  }

  /** One class's share of a dispatch: its count, only when 0..40, then writes into its n slots. */
  ghost predicate ClassBlock(reqs: seq<Request>, n: int, good: bool) {
    if 0 <= n <= MAX_TARGET_COUNT then
      |reqs| > 0 && reqs[0] == RegisterWrite(CountRegister(good), n) && SlotWrites(reqs[1..], n, good)
    else SlotWrites(reqs, n, good)
  }

  /** The good block, then the bad block, then the START pulse. */
  ghost predicate DispatchShaped(reqs: seq<Request>, ng: int, nb: int) {
    && |reqs| >= 2
    && reqs[|reqs| - 2..] == [CoilWrite(START_COMMAND, true), CoilWrite(START_COMMAND, false)]
    && exists m :: 0 <= m <= |reqs| - 2 && ClassBlock(reqs[..m], ng, true) && ClassBlock(reqs[m..|reqs| - 2], nb, false)
  }

  /** Slot writes only append requests, each into the class's slots 1..k, whether or not acknowledged. */
  lemma {:induction false} SendSlotsLog(b: Bus, coords: seq<Point>, k: nat, good: bool)
    requires k <= |coords|
    ensures var r := SendSlots(b, coords, k, good);
      && b.log <= r.log
      && forall i :: |b.log| <= i < |r.log| ==>
           r.log[i].RegisterWrite? && SlotBase(good) <= r.log[i].address < SlotBase(good) + 2 * k
  {
    if k > 0 {
      SendSlotsLog(b, coords, k - 1, good);
      SlotWriteLog(SendSlots(b, coords, k - 1, good), k, coords[k - 1].x, coords[k - 1].y, good);
    }
  }

  /** A class's target count and slot writes, whatever the replies. */
  lemma ClassBlockLog(b: Bus, coords: seq<Point>, good: bool)
    ensures var r := SendSlots(AfterTargetCount(b, |coords|, good), coords, |coords|, good);
      b.log <= r.log && ClassBlock(r.log[|b.log|..], |coords|, good)
  {
    var b1 := AfterTargetCount(b, |coords|, good);
    TargetCountContract(b, |coords|, good);
    SendSlotsLog(b1, coords, |coords|, good);
    var r := SendSlots(b1, coords, |coords|, good);
    var tail := r.log[|b1.log|..];
    assert SlotWrites(tail, |coords|, good) by {
      forall i | 0 <= i < |tail|
        ensures tail[i].RegisterWrite? && SlotBase(good) <= tail[i].address < SlotBase(good) + 2 * |coords|
      {
        assert tail[i] == r.log[|b1.log| + i];
      }
    }
    if |coords| <= MAX_TARGET_COUNT {
      assert r.log[|b.log|..][1..] == tail;
    }
  }

  /**
   * Whatever the robot replies, a dispatch appends the good class's count
   * (when valid) and slot writes, then the bad class's, then START on and
   * off: no bad-class request comes before a good-class one.
   */
  lemma DispatchOrder(b: Bus, toRobotCoords: seq<Point>, toRobotCoordsBad: seq<Point>)
    ensures var r := AfterDispatch(b, toRobotCoords, toRobotCoordsBad);
      b.log <= r.log && DispatchShaped(r.log[|b.log|..], |toRobotCoords|, |toRobotCoordsBad|)
  {
    var g, d := toRobotCoords, toRobotCoordsBad;
    var b2 := SendSlots(AfterTargetCount(b, |g|, true), g, |g|, true);
    var b4 := SendSlots(AfterTargetCount(b2, |d|, false), d, |d|, false);
    ClassBlockLog(b, g, true);
    ClassBlockLog(b2, d, false);
    var r := AfterDispatch(b, g, d);
    assert r.log == b4.log + [CoilWrite(START_COMMAND, true), CoilWrite(START_COMMAND, false)];
    BlocksMakeDispatch(b.log, b2.log, b4.log, r.log, |g|, |d|);
  }

  /** Two class blocks followed by the START pulse are a dispatch. */
  lemma BlocksMakeDispatch(l0: seq<Request>, l2: seq<Request>, l4: seq<Request>, log: seq<Request>, ng: int, nb: int)
    requires l0 <= l2 <= l4
    requires ClassBlock(l2[|l0|..], ng, true) && ClassBlock(l4[|l2|..], nb, false)
    requires log == l4 + [CoilWrite(START_COMMAND, true), CoilWrite(START_COMMAND, false)]
    ensures l0 <= log && DispatchShaped(log[|l0|..], ng, nb)
  {
    var reqs := log[|l0|..];
    assert reqs[..|l2| - |l0|] == l2[|l0|..];
    assert reqs[|l2| - |l0|..|reqs| - 2] == l4[|l2|..];
    assert reqs[|reqs| - 2..] == log[|l4|..];
  }

  /**
   * Whatever the robot replies, a pick-up's requests begin with the dispatch
   * in that order, followed by the first poll of register 31.
   */
  lemma PickUpPhases(c: Cycle, refresh: Capture, project: Point -> Point)
    ensures var r := PickUpCycle(c, refresh, project);
      var n0 := |c.bus.log|;
      && c.bus.log <= r.bus.log
      && exists e :: n0 <= e < |r.bus.log| && r.bus.log[e] == InputRead(ROBOT_CYCLE_COMPLETE, 1)
           && DispatchShaped(r.bus.log[n0..e], |Dispatched(refresh.good, project, true)|,
                             |Dispatched(refresh.bad, project, false)|)
  {
    var g, d := Dispatched(refresh.good, project, true), Dispatched(refresh.bad, project, false);
    var b1 := AfterDispatch(c.bus, g, d);
    DispatchOrder(c.bus, g, d);
    var b2 := AwaitRobot(b1);
    assert b2.log[|b1.log|] == InputRead(ROBOT_CYCLE_COMPLETE, 1);
    ResetLogGrows(b2, MAX_ITEMS, MAX_ITEMS_BAD);
    PollFollowsDispatch(c.bus.log, b1.log, b2.log, PickUpCycle(c, refresh, project).bus.log, |g|, |d|);
  }

  /** A dispatch, then a poll, then anything: the dispatch and the poll stay where they were. */
  lemma PollFollowsDispatch(l0: seq<Request>, l1: seq<Request>, l2: seq<Request>, l3: seq<Request>, ng: int, nb: int)
    requires l0 <= l1 && DispatchShaped(l1[|l0|..], ng, nb)
    requires l1 <= l2 && |l1| < |l2| && l2[|l1|] == InputRead(ROBOT_CYCLE_COMPLETE, 1)
    requires l2 <= l3
    ensures l0 <= l3
    ensures exists e :: |l0| <= e < |l3| && l3[e] == InputRead(ROBOT_CYCLE_COMPLETE, 1)
              && DispatchShaped(l3[|l0|..e], ng, nb)
  {
    var e := |l1|;
    assert l3[|l0|..e] == l1[|l0|..];
    assert l3[e] == l2[e];
  }

  /**
   * Whatever the robot replies, a pass that picks up switches the conveyor
   * on, then off, and only then dispatches (good block, bad block, START
   * pulse) and polls the robot.
   */
  lemma StepPickUpPhases(c: Cycle, captures: seq<Capture>, project: Point -> Point)
    requires c.next + 1 < |captures|
    requires !captures[c.next].escape
    requires Ready(Detections(captures[c.next].good), Detections(captures[c.next].bad))
    requires !captures[c.next + 1].escape
    ensures var log := Step(c, captures, project).bus.log;
      var refresh := captures[c.next + 1];
      var n0 := |c.bus.log| + 2;
      && c.bus.log + [CoilWrite(CONVEYOR_ON, true), CoilWrite(CONVEYOR_ON, false)] <= log
      && exists e :: n0 <= e < |log| && log[e] == InputRead(ROBOT_CYCLE_COMPLETE, 1)
           && DispatchShaped(log[n0..e], |Dispatched(refresh.good, project, true)|,
                             |Dispatched(refresh.bad, project, false)|)
  {
    StepPickUpCase(c, captures, project);
    var b2 := AfterConveyor(AfterConveyor(c.bus, "on"), "off");
    assert b2.log == c.bus.log + [CoilWrite(CONVEYOR_ON, true), CoilWrite(CONVEYOR_ON, false)];
    PickUpPhases(c.(bus := b2, next := c.next + 2), captures[c.next + 1], project);
  }

  /** Acknowledged writes stay acknowledged over a pass. */
  lemma StepKeepsAllAck(c: Cycle, captures: seq<Capture>, project: Point -> Point)
    requires c.next < |captures| && AllAck(c.bus)
    ensures AllAck(Step(c, captures, project).bus)
  {
    var shot := captures[c.next];
    if shot.escape {
      StepEscapeCase(c, captures, project);
    } else if !Ready(Detections(shot.good), Detections(shot.bad)) {
      StepNotReadyCase(c, captures, project);
    } else if c.next + 1 == |captures| {
      StepLastCaptureCase(c, captures, project);
    } else if captures[c.next + 1].escape {
      StepRefreshEscapeCase(c, captures, project);
    } else {
      StepPickUpCase(c, captures, project);
      var refresh := captures[c.next + 1];
      var b2 := AfterConveyor(AfterConveyor(c.bus, "on"), "off");
      var g, d := Dispatched(refresh.good, project, true), Dispatched(refresh.bad, project, false);
      DispatchKeepsAllAck(b2, g, d);
      ResetAcked(AwaitRobot(AfterDispatch(b2, g, d)), MAX_ITEMS, MAX_ITEMS_BAD);
    }
  }

  lemma {:induction false} RunKeepsAllAck(c: Cycle, captures: seq<Capture>, project: Point -> Point)
    requires AllAck(c.bus)
    ensures AllAck(Run(c, captures, project).bus)
    decreases |captures| - c.next
  {
    if !(c.escaped || c.next >= |captures| || !KeepGoing(c.totals)) {
      StepKeepsAllAck(c, captures, project);
      RunKeepsAllAck(Step(c, captures, project), captures, project);
    }
  }

  /**
   * With every write acknowledged, a session that did not abort leaves START
   * and the conveyor off and the capacities 33 and 15 in registers 99 and 129.
   */
  lemma SessionEndsReset(b: Bus, captures: seq<Capture>, project: Point -> Point)
    requires AllAck(b) && CycleStatus(b) != Some(0)
    ensures var (outcome, r) := Session(b, captures, project);
      && outcome.Finished?
      && START_COMMAND in r.coils && !r.coils[START_COMMAND]
      && CONVEYOR_ON in r.coils && !r.coils[CONVEYOR_ON]
      && GOOD_COUNT_REGISTER in r.registers && r.registers[GOOD_COUNT_REGISTER] == MAX_ITEMS
      && BAD_COUNT_REGISTER in r.registers && r.registers[BAD_COUNT_REGISTER] == MAX_ITEMS_BAD
  {
    var b1 := AfterReadInput(b, ROBOT_CYCLE_COMPLETE, 1);
    ResetAcked(b1, MAX_ITEMS, MAX_ITEMS_BAD);
    var c := Cycle(AfterReset(b1, MAX_ITEMS, MAX_ITEMS_BAD), 0, Totals(0, 0, 0), false, []);
    RunKeepsAllAck(c, captures, project);
    var last := Run(c, captures, project);
    CellResetCounts(last.bus, MAX_ITEMS, MAX_ITEMS_BAD);
  }

  method LoopBody(client: ModbusClient, captures: seq<Capture>, project: Point -> Point,
                  next: nat, totals: Totals, reports: seq<Unreachable>)
    returns (next': nat, totals': Totals, escaped: bool, reports': seq<Unreachable>)
    requires next < |captures|
    modifies client
    ensures Cycle(client.State(), next', totals', escaped, reports')
            == Step(Cycle(old(client.State()), next, totals, false, reports), captures, project)
  {
    ghost var c := Cycle(old(client.State()), next, totals, false, reports);
    StepCases(c, captures, project);
    next', totals', escaped, reports' := next, totals, false, reports;
    Conveyor(client, "on");
    var shot := captures[next'];
    next' := next' + 1;
    var imgCoords, imgCoordsBad := DetectBoth(shot);
    if shot.escape {
      escaped := true;
      return;
    }
    var readyForPickup := WaitForItems(imgCoords, imgCoordsBad);
    if !readyForPickup {
      return;
    }
    Conveyor(client, "off");
    if next' == |captures| {
      return;
    }
    var refresh := captures[next'];
    next' := next' + 1;
    if refresh.escape {
      escaped := true;
      return;
    }
    ghost var b2 := client.State();
    StepPickUpCase(c, captures, project);
    ghost var target := PickUpCycle(Cycle(b2, next', totals, false, reports), refresh, project);
    assert Step(c, captures, project) == target;
    totals', reports' := PickUp(client, refresh, project, next', totals, reports);
  }

  /** `find_items` on the good and on the bad image of one capture; the markers only feed the display. */
  method DetectBoth(shot: Capture) returns (imgCoords: seq<Point>, imgCoordsBad: seq<Point>)
    ensures imgCoords == Detections(shot.good) && imgCoordsBad == Detections(shot.bad)
  {
    var marks, marksBad;
    imgCoords, marks := FindItems(shot.good, true);
    imgCoordsBad, marksBad := FindItems(shot.bad, false);
  }

  /** main.py's pick-up half of the loop: convert, filter, report, dispatch, wait and reset. */
  method PickUp(client: ModbusClient, refresh: Capture, project: Point -> Point, next: nat,
                totals: Totals, reports: seq<Unreachable>)
    returns (totals': Totals, reports': seq<Unreachable>)
    modifies client
    ensures Cycle(client.State(), next, totals', false, reports')
            == PickUpCycle(Cycle(old(client.State()), next, totals, false, reports), refresh, project)
  {
    var imgCoords, marks := FindItems(refresh.good, true);
    var numItems := |imgCoords|;
    var imgCoordsBad, marksBad := FindItems(refresh.bad, false);
    var worldCoords := ConvertAll(imgCoords, project, true);
    var worldCoordsBad := ConvertAll(imgCoordsBad, project, false);
    var toRobotCoords := FilterReachable(imgCoords, worldCoords);
    var numReachable := |toRobotCoords|;
    var totalGood := totals.good + numReachable;
    var toRobotCoordsBad := FilterReachable(imgCoordsBad, worldCoordsBad);
    var numReachableBad := |toRobotCoordsBad|;
    var totalBad := totals.bad + numReachableBad;
    reports' := reports + [Unreachable(numItems - numReachable, numItems - numReachable)];
    assert toRobotCoords == Dispatched(refresh.good, project, true);
    assert toRobotCoordsBad == Dispatched(refresh.bad, project, false);
    assert reports' == reports + [UnreachableReport(refresh.good, project)];
    ghost var b0 := client.State();
    Dispatch(client, toRobotCoords, toRobotCoordsBad);
    ghost var b1 := client.State();
    WaitForRobot(client);
    ghost var b2 := client.State();
    assert b2 == AwaitRobot(AfterDispatch(b0, toRobotCoords, toRobotCoordsBad));
    ResetBits(client, MAX_ITEMS);
    assert client.State() == AfterReset(b2, MAX_ITEMS, MAX_ITEMS_BAD);
    totals' := Totals(totalGood + totalBad, totalGood, totalBad);
  }

  method End(client: ModbusClient)
    modifies client
    ensures client.State() == AfterReset(old(client.State()), MAX_ITEMS, MAX_ITEMS_BAD)
  {
    ResetBits(client, MAX_ITEMS);
  }

  /** main(): the run of the cell over the given captures. */
  method PickAndPlace(client: ModbusClient, captures: seq<Capture>, project: Point -> Point)
    returns (outcome: Outcome)
    modifies client
    ensures (outcome, client.State()) == Session(old(client.State()), captures, project)
  {
    var status := CheckRobotCycleComplete(client);
    if status == Some(0) {
      return Aborted;
    }
    ResetBits(client, MAX_ITEMS);
    var next, totals, reports := 0, Totals(0, 0, 0), [];
    ghost var last := Run(Cycle(client.State(), 0, totals, false, []), captures, project);
    while totals.items < TOTAL_GOOD_SPOTS + TOTAL_BAD_SPOTS && totals.good < TOTAL_GOOD_SPOTS
          && totals.bad < TOTAL_BAD_SPOTS && next < |captures|
      invariant next <= |captures|
      invariant Run(Cycle(client.State(), next, totals, false, reports), captures, project) == last
      decreases |captures| - next
    {
      ghost var before := Cycle(client.State(), next, totals, false, reports);
      var escaped;
      next, totals, escaped, reports := LoopBody(client, captures, project, next, totals, reports);
      if escaped {
        assert Run(Cycle(client.State(), next, totals, true, reports), captures, project) == last;
        break;
      }
    }
    End(client);
    return Finished(totals, reports);
  }
}
