/** The PWM driver for an NXP PCA9685 16-channel PWM controller on an I²C
    bus. The bus is modelled as the trace of operations the driver issues:
    each byte write is `Write(address, register, value)` and the one register
    read is `Read(address, register)`, whose answer is a parameter of the
    constructor. */
module PwmDriver {

  // Command bytes
  const SWRST_COMMAND: int := 0x00

  // Registers
  const MODE1: int := 0x00
  const MODE2: int := 0x01
  const SUBADR1: int := 0x02
  const SUBADR2: int := 0x03
  const SUBADR3: int := 0x04
  const SWRST_REGISTER: int := 0x06
  const PRESCALE: int := 0xFE
  const LED0_ON_L: int := 0x06
  const LED0_ON_H: int := 0x07
  const LED0_OFF_L: int := 0x08
  const LED0_OFF_H: int := 0x09
  const ALL_LED_ON_L: int := 0xFA
  const ALL_LED_ON_H: int := 0xFB
  const ALL_LED_OFF_L: int := 0xFC
  const ALL_LED_OFF_H: int := 0xFD

  // MODE1 bits
  const RESTART: bv8 := 1 << 7
  const EXTCLK: bv8 := 1 << 6
  const AUTOINC: bv8 := 1 << 5
  const SLEEP: bv8 := 1 << 4
  const SUB1: bv8 := 1 << 3
  const SUB2: bv8 := 1 << 2
  const SUB3: bv8 := 1 << 1
  const ALLCALL: bv8 := 1 << 0

  // MODE2 bits
  const INVRT: bv8 := 1 << 4
  const OUTCHG: bv8 := 1 << 3
  const OUTDRV: bv8 := 0x04

  const DEFAULT_ADDRESS: int := 0x60
  const DEFAULT_BUS: int := 1

  /** One operation on the bus. Values are whatever the driver computed; the
      transport decides what it does with a value outside a byte. */
  datatype BusOp = Write(address: int, register: int, value: int) | Read(address: int, register: int)

  /** Every operation in `ops` goes to the device at `address`. */
  ghost predicate AllTo(ops: seq<BusOp>, address: int)
  {
    forall i :: 0 <= i < |ops| ==> ops[i].address == address
  }

  /** The number a JavaScript bitwise operator works on: the integer taken
      modulo 2^32 into the signed 32-bit range. */
  function ToInt32(v: int): (w: int)
    ensures -0x8000_0000 <= w < 0x8000_0000
    ensures (w - v) % 0x1_0000_0000 == 0
    ensures 0 <= v < 0x8000_0000 ==> w == v
  {
    var m := v % 0x1_0000_0000;
    if m >= 0x8000_0000 then m - 0x1_0000_0000 else m
  }

  /** `v & 0xFF`: the low eight bits of the two's-complement value, which
      are the value modulo 256. */
  function LowByte(v: int): (low: int)
    ensures 0 <= low < 256
    ensures (low - v) % 256 == 0
  {
    CongruentLowBytes(ToInt32(v), v);
    ToInt32(v) % 256
  }

  /** Two integers congruent modulo 2^32 are congruent modulo 256. */
  lemma CongruentLowBytes(w: int, v: int)
    requires (w - v) % 0x1_0000_0000 == 0
    ensures (w % 256 - v) % 256 == 0
  {
    var q := (w - v) / 0x1_0000_0000;
    var d := w / 256;
    assert w - v == 0x1_0000_0000 * q;
    assert w == 256 * d + w % 256;
    assert w % 256 - v == 256 * (0x100_0000 * q - d);
  }

  /** `v >> 8`: an arithmetic shift, so the sign is kept; together with the
      low byte it rebuilds the 32-bit value. */
  function HighByte(v: int): (high: int)
    ensures -0x80_0000 <= high < 0x80_0000
    ensures 256 * high + LowByte(v) == ToInt32(v)
  {
    ToInt32(v) / 256
  }

  /** Splitting a 32-bit non-negative value into `v & 0xFF` and `v >> 8`
      loses nothing, and the low part is a byte. */
  lemma ByteSplit(v: int)
    requires 0 <= v < 0x8000_0000
    ensures 0 <= LowByte(v) < 256
    ensures 0 <= HighByte(v) < 0x80_0000
    ensures LowByte(v) + 256 * HighByte(v) == v
  {
  }

  /** For a channel value up to the "full on/off" sentinel 4096 both halves
      are bytes and the high half holds at most the 4 counter bits and the
      full-on/off bit. */
  lemma TickSplit(v: int)
    requires 0 <= v <= 4096
    ensures LowByte(v) < 256 && HighByte(v) <= 16
    ensures LowByte(v) + 256 * HighByte(v) == v
    ensures v == 4096 ==> LowByte(v) == 0 && HighByte(v) == 16
  {
    ByteSplit(v);
  }

  /** Negative values keep the JavaScript meaning: `-1 & 0xFF` is 255 and
      `-1 >> 8` is -1. */
  lemma NegativeOneSplit()
    ensures LowByte(-1) == 255 && HighByte(-1) == -1
  {
  }

  /** The four byte writes of `setAllChannels(on, off)`. */
  function AllChannelWrites(address: int, on: int, off: int): (ops: seq<BusOp>)
    ensures |ops| == 4 && AllTo(ops, address)
    ensures forall i :: 0 <= i < 4 ==> ops[i].Write? && ops[i].register == ALL_LED_ON_L + i
    ensures 0 <= ops[0].value < 256 && 0 <= ops[2].value < 256
    ensures 0 <= on < 0x8000_0000 ==> ops[0].value + 256 * ops[1].value == on
    ensures 0 <= off < 0x8000_0000 ==> ops[2].value + 256 * ops[3].value == off
  {
    [Write(address, ALL_LED_ON_L, LowByte(on)), Write(address, ALL_LED_ON_H, HighByte(on)),
     Write(address, ALL_LED_OFF_L, LowByte(off)), Write(address, ALL_LED_OFF_H, HighByte(off))]
  }

  /** `mode1 &= ~SLEEP`: the MODE1 byte with the SLEEP bit cleared. */
  function WakeByte(mode1: bv8): (woken: bv8)
    ensures woken & SLEEP == 0
    ensures woken | SLEEP == mode1 | SLEEP
    ensures woken as int == if mode1 & SLEEP == 0 then mode1 as int else mode1 as int - 16
  {
    mode1 & !SLEEP
  }

  /** Bit by bit: bit 4 is cleared and every other bit of the read byte is
      kept. */
  lemma WakeByteBits(mode1: bv8, i: nat)
    requires i < 8
    ensures (WakeByte(mode1) >> i) & 1 == if i == 4 then 0 else (mode1 >> i) & 1
  {
    if i == 0 {} else if i == 1 {} else if i == 2 {} else if i == 3 {}
    else if i == 4 {} else if i == 5 {} else if i == 6 {} else {}
  }

  /** The bus operations of the constructor, in order, when the MODE1 read
      returns `mode1`. */
  function InitSequence(address: int, mode1: bv8): (ops: seq<BusOp>)
    ensures |ops| == 8 && AllTo(ops, address)
  {
    AllChannelWrites(address, 0, 0)
      + [Write(address, MODE2, OUTDRV as int),
         Write(address, MODE1, ALLCALL as int),
         Read(address, MODE1),
         Write(address, MODE1, WakeByte(mode1) as int)]
  }

  /** The initialisation first forces every output low, then configures
      MODE2 and MODE1, and finally writes back the read MODE1 byte awake. */
  lemma InitSequenceOrder(address: int, mode1: bv8)
    ensures var ops := InitSequence(address, mode1);
      (forall i :: 0 <= i < 4 ==> ops[i] == Write(address, ALL_LED_ON_L + i, 0)) &&
      ops[4] == Write(address, MODE2, 0x04) &&
      ops[5] == Write(address, MODE1, 0x01) &&
      ops[6] == Read(address, MODE1) &&
      ops[7] == Write(address, MODE1, WakeByte(mode1) as int) &&
      ops[7].value == if mode1 & SLEEP == 0 then mode1 as int else mode1 as int - 16
  {
  }

  /** The driver: one device address on one bus, and the operations issued
      to it so far. */
  class Pwm {
    const address: int
    const busNum: int
    var trace: seq<BusOp>

    /** Every operation this driver issues goes to its own address. */
    ghost predicate Valid()
      reads this
    {
      AllTo(trace, address)
    }

    /** Opens the device and runs the initialisation sequence; `mode1Read`
        is the byte the bus answers to the one MODE1 read. */
    constructor (mode1Read: bv8, address: int := DEFAULT_ADDRESS, busNum: int := DEFAULT_BUS)
      ensures Valid()
      ensures this.address == address && this.busNum == busNum
      ensures trace == InitSequence(address, mode1Read)
    {
      this.address := address;
      this.busNum := busNum;
      trace := [];
      new;
      SetAllChannels(0, 0);
      WriteByte(MODE2, OUTDRV as int);
      WriteByte(MODE1, ALLCALL as int);
      var mode1 := ReadByte(MODE1, mode1Read);
      mode1 := mode1 & !SLEEP;
      WriteByte(MODE1, mode1 as int);
    }

    /** One byte write to a register of this device. */
    method WriteByte(register: int, value: int)
      requires Valid()
      modifies this
      ensures Valid()
      ensures trace == old(trace) + [Write(address, register, value)]
    {
      trace := trace + [Write(address, register, value)];
    }

    /** One byte read from a register of this device; the bus answers
        `answer`. */
    method ReadByte(register: int, answer: bv8) returns (b: bv8)
      requires Valid()
      modifies this
      ensures Valid()
      ensures b == answer
      ensures trace == old(trace) + [Read(address, register)]
    {
      trace := trace + [Read(address, register)];
      b := answer;
    }

    /** `reset()`: writes the SWRST command byte into MODE1 of this device. */
    method Reset()
      requires Valid()
      modifies this
      ensures Valid()
      ensures trace == old(trace) + [Write(address, MODE1, SWRST_COMMAND)]
    {
      WriteByte(MODE1, SWRST_COMMAND);
    }

    /** `setAllChannels(on, off)`: the four broadcast LED registers, low byte
        before high byte, on-tick before off-tick. */
    method SetAllChannels(on: int, off: int)
      requires Valid()
      modifies this
      ensures Valid()
      ensures trace == old(trace) + AllChannelWrites(address, on, off)
    {
      WriteByte(ALL_LED_ON_L, LowByte(on));
      WriteByte(ALL_LED_ON_H, HighByte(on));
      WriteByte(ALL_LED_OFF_L, LowByte(off));
      WriteByte(ALL_LED_OFF_H, HighByte(off));
    }
  }
}
