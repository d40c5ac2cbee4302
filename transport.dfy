/**
 * The register transport the cell drives: a Modbus TCP client to the robot
 * controller. The controller's holding registers and coils are maps; every
 * request the client issues is appended to a log; and how the transport
 * answers is an input, a script of replies consumed one per request.
 *
 * A write reply is `Ack`, or one of the three failures the cell checks for:
 * a library exception, a response whose error flag is set, or an exception
 * response. Once the write script is exhausted the transport acknowledges.
 * A read reply carries the register values or one of two failures; once the
 * read script is exhausted a read raises (the connection is gone).
 * A write changes the controller's map only when it is acknowledged.
 */
module Transport {

  datatype Reply = Ack | Raised | ErrorFlag | ExceptionReply

  datatype ReadReply = Registers(values: seq<bv16>) | ReadErrorFlag | ReadRaised

  datatype Request =
    | CoilWrite(address: int, on: bool)
    | RegisterWrite(address: int, value: int)
    | InputRead(address: int, count: int)

  /** The state of the controller and of the conversation with it. */
  datatype Bus = Bus(
    registers: map<int, int>,
    coils: map<int, bool>,
    log: seq<Request>,
    writeReplies: seq<Reply>,
    readReplies: seq<ReadReply>)

  function NextReply(b: Bus): Reply {
    if |b.writeReplies| == 0 then Ack else b.writeReplies[0]
  }

  function NextReadReply(b: Bus): ReadReply {
    if |b.readReplies| == 0 then ReadRaised else b.readReplies[0]
  }

  function RestOf<T>(s: seq<T>): seq<T> {
    if |s| == 0 then [] else s[1..]
  }

  /** Every write still to come will be acknowledged. */
  ghost predicate AllAck(b: Bus) {
    forall i :: 0 <= i < |b.writeReplies| ==> b.writeReplies[i] == Ack
  }

  function AfterWriteCoil(b: Bus, address: int, value: bool): Bus {
    b.(coils := if NextReply(b) == Ack then b.coils[address := value] else b.coils,
       log := b.log + [CoilWrite(address, value)],
       writeReplies := RestOf(b.writeReplies))
  }

  function AfterWriteRegister(b: Bus, address: int, value: int): Bus {
    b.(registers := if NextReply(b) == Ack then b.registers[address := value] else b.registers,
       log := b.log + [RegisterWrite(address, value)],
       writeReplies := RestOf(b.writeReplies))
  }

  function AfterReadInput(b: Bus, address: int, count: int): Bus {
    b.(log := b.log + [InputRead(address, count)],
       readReplies := RestOf(b.readReplies))
  }

  /** Against an all-acknowledging controller a coil write sets the coil and keeps acknowledging. */
  lemma CoilWriteAcked(b: Bus, address: int, value: bool)
    requires AllAck(b)
    ensures var r := AfterWriteCoil(b, address, value);
      && AllAck(r) && r.coils == b.coils[address := value]
      && r.registers == b.registers && r.readReplies == b.readReplies
  {
    var r := AfterWriteCoil(b, address, value);
    assert forall i :: 0 <= i < |r.writeReplies| ==> r.writeReplies[i] == b.writeReplies[i + 1];
  }

  /** The client object (pymodbus' ModbusTcpClient, connected). */
  class ModbusClient {
    var registers: map<int, int>
    var coils: map<int, bool>
    var log: seq<Request>
    var writeReplies: seq<Reply>
    var readReplies: seq<ReadReply>

    constructor (registers: map<int, int>, coils: map<int, bool>,
                 writeReplies: seq<Reply>, readReplies: seq<ReadReply>)
      ensures State() == Bus(registers, coils, [], writeReplies, readReplies)
    {
      this.registers := registers;
      this.coils := coils;
      this.log := [];
      this.writeReplies := writeReplies;
      this.readReplies := readReplies;
    }

    function State(): Bus
      reads this
    {
      Bus(registers, coils, log, writeReplies, readReplies)
    }

    method WriteCoil(address: int, value: bool) returns (reply: Reply)
      modifies this
      ensures reply == NextReply(old(State()))
      ensures State() == AfterWriteCoil(old(State()), address, value)
    {
      reply := NextReply(State());
      if reply == Ack {
        coils := coils[address := value];
      }
      log := log + [CoilWrite(address, value)];
      writeReplies := RestOf(writeReplies);
    }

    method WriteRegister(address: int, value: int) returns (reply: Reply)
      modifies this
      ensures reply == NextReply(old(State()))
      ensures State() == AfterWriteRegister(old(State()), address, value)
    {
      reply := NextReply(State());
      if reply == Ack {
        registers := registers[address := value];
      }
      log := log + [RegisterWrite(address, value)];
      writeReplies := RestOf(writeReplies);
    }

    method ReadInputRegisters(address: int, count: int) returns (reply: ReadReply)
      modifies this
      ensures reply == NextReadReply(old(State()))
      ensures State() == AfterReadInput(old(State()), address, count)
    {
      reply := NextReadReply(State());
      log := log + [InputRead(address, count)];
      readReplies := RestOf(readReplies);
    }
  }
}
