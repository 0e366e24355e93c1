/**
 * Register I/O of the amplifier. The driver's transport (regmap over I2C)
 * is replaced by an append-only trace of the transactions it issues; a
 * register file with a page-select register gives those transactions their
 * meaning on the chip.
 */
module Registers {
  import opened Basics
  import opened GainCodec

  /** Register addresses on page 0; address 0 is the page select on every page. */
  const REG_PAGE: byte := 0x00
  const REG_DEVICE_STATE: byte := 0x04
  const REG_STATE_REPORT: byte := 0x16
  const REG_GLOBAL_FAULT1: byte := 0x17
  const REG_GLOBAL_FAULT2: byte := 0x18
  const REG_GLOBAL_FAULT3: byte := 0x19

  /** Values of the DEVICE_STATE register. */
  const DEVICE_STATE_DEEP_SLEEP: byte := 0x00
  const DEVICE_STATE_SLEEP: byte := 0x01
  const DEVICE_STATE_HIZ: byte := 0x02
  const DEVICE_STATE_PLAY: byte := 0x03
  const DEVICE_STATE_MUTE: byte := 0x0C

  /**
   * One transaction: `regmap_write`, `regmap_bulk_write` or `regmap_read`.
   * The value a read returns is only logged by the driver, so it is not recorded.
   */
  datatype Event =
    | Write(reg: byte, val: byte)
    | Bulk(reg: byte, data: seq<byte>)
    | Read(reg: byte)

  /** A register of the chip: a page and an offset within it. */
  datatype Addr = Addr(page: byte, offset: int)

  /** The chip's registers as far as writes have defined them, and the selected page. */
  datatype Device = Device(page: byte, regs: map<Addr, byte>)

  function Peek(d: Device, a: Addr): Option<byte>
  {
    if a in d.regs then Some(d.regs[a]) else None
  }

  /** A single register write: offset 0 selects the page, any other offset is page-relative. */
  function Store(d: Device, reg: int, v: byte): Device
  {
    if reg == REG_PAGE then d.(page := v) else d.(regs := d.regs[Addr(d.page, reg) := v])
  }

  /** A burst writes consecutive registers starting at reg. */
  function StoreBurst(d: Device, reg: int, data: seq<byte>): Device
    decreases |data|
  {
    if data == [] then d else StoreBurst(Store(d, reg, data[0]), reg + 1, data[1..])
  }

  function Apply(d: Device, e: Event): Device
  {
    match e
    case Write(r, v) => Store(d, r, v)
    case Bulk(r, data) => StoreBurst(d, r, data)
    case Read(_) => d
  }

  /** The device after the transactions es, in order. */
  function Run(d: Device, es: seq<Event>): Device
    decreases |es|
  {
    if es == [] then d else Run(Apply(d, es[0]), es[1..])
  }

  /** Running a trace in two parts is running it whole. */
  lemma {:induction false} RunAppend(d: Device, a: seq<Event>, b: seq<Event>)
    ensures Run(d, a + b) == Run(Run(d, a), b)
    decreases |a|
  {
    if a == [] {
      assert a + b == b;
    } else {
      assert (a + b)[0] == a[0];
      assert (a + b)[1..] == a[1..] + b;
      RunAppend(Apply(d, a[0]), a[1..], b);
    }
  }

  lemma RunCons(d: Device, e: Event, es: seq<Event>)
    ensures Run(d, [e] + es) == Run(Apply(d, e), es)
  {
    assert ([e] + es)[0] == e && ([e] + es)[1..] == es;
  }

  /** The four-byte value at page/offset, read most significant first, once all four bytes are defined. */
  function ReadGain(d: Device, page: byte, offset: int): Option<int>
  {
    var p0, p1, p2, p3 := Peek(d, Addr(page, offset)), Peek(d, Addr(page, offset + 1)),
                          Peek(d, Addr(page, offset + 2)), Peek(d, Addr(page, offset + 3));
    if p0.Some? && p1.Some? && p2.Some? && p3.Some?
    then Some(FromBigEndian([p0.value, p1.value, p2.value, p3.value]))
    else None
  }

  /** The registers a 4-byte burst at offset covers on page. */
  predicate InBurst(a: Addr, page: byte, offset: int)
  {
    a.page == page && offset <= a.offset < offset + 4
  }

  /**
   * A 4-byte burst away from the page-select register leaves the page as it
   * was, makes the four covered registers read back as the burst, and
   * touches no other register.
   */
  lemma {:induction false} BurstEffect(d: Device, reg: int, v: seq<byte>)
    requires |v| == 4 && reg > 0
    ensures StoreBurst(d, reg, v).page == d.page
    ensures ReadGain(StoreBurst(d, reg, v), d.page, reg) == Some(FromBigEndian(v))
    ensures forall a :: !InBurst(a, d.page, reg) ==> Peek(StoreBurst(d, reg, v), a) == Peek(d, a)
  {
    var p := d.page;
    var d1 := Store(d, reg, v[0]);
    var d2 := Store(d1, reg + 1, v[1]);
    var d3 := Store(d2, reg + 2, v[2]);
    var d4 := Store(d3, reg + 3, v[3]);
    assert StoreBurst(d3, reg + 3, v[3..]) == d4 by {
      assert v[3..][0] == v[3] && v[3..][1..] == [];
    }
    assert StoreBurst(d2, reg + 2, v[2..]) == d4 by {
      assert v[2..][0] == v[2] && v[2..][1..] == v[3..];
    }
    assert StoreBurst(d1, reg + 1, v[1..]) == d4 by {
      assert v[1..][0] == v[1] && v[1..][1..] == v[2..];
    }
    assert StoreBurst(d, reg, v) == d4;
    assert d4.regs == d.regs[Addr(p, reg) := v[0]][Addr(p, reg + 1) := v[1]][Addr(p, reg + 2) := v[2]][Addr(p, reg + 3) := v[3]];
    assert [d4.regs[Addr(p, reg)], d4.regs[Addr(p, reg + 1)], d4.regs[Addr(p, reg + 2)], d4.regs[Addr(p, reg + 3)]] == v;
  }
}
