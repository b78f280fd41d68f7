/**
 * Port numbering of the AG9032v2 front panel and where each port's serial-ID
 * fields live in its transceiver EEPROM.  Ports 0-31 are QSFP, whose serial ID
 * is SFF-8436 Upper Page 00h (EEPROM bytes 128-255); ports 32-33 are SFP, whose
 * serial ID is the SFF-8472 A0h page (Table 4-1, EEPROM bytes 0-95).
 */
module Layout {
  import opened Text

  const PortStart: int := 0
  const PortEndQsfp: int := 31
  const PortStartSfp: int := 32
  const PortEnd: int := 33

  /** `port_start <= x <= port_end`: the ports the constructor gives an EEPROM path. */
  predicate IsPort(x: int) {
    PortStart <= x <= PortEnd
  }

  /** `range(port_start, port_end + 1)`, the ports the constructor walks. */
  function Ports(): (ps: seq<int>)
    ensures forall x :: x in ps <==> IsPort(x)
  {
    var ps := seq(PortEnd + 1 - PortStart, i => PortStart + i);
    assert forall x | IsPort(x) :: ps[x - PortStart] == x;
    ps
  }

  /** The same ports as a set: the domain of the path table. */
  function PortSet(): (s: set<int>)
    ensures forall x :: x in s <==> IsPort(x)
  {
    set x | x in Ports()
  }

  /** Port x's EEPROM sits on i2c bus x + EepromOffset. */
  const EepromOffset: int := 20

  /** The serial-ID layout a port's transceiver follows. */
  datatype MemoryMap = Sff8436UpperPage00 | Sff8472A0

  /** `port_num > PORT_END_QSFP` selects SFP; every other index, negative ones included, selects QSFP. */
  function MemoryMapOf(port: int): (m: MemoryMap)
    ensures IsPort(port) ==> (m == Sff8472A0 <==> PortStartSfp <= port)
    ensures port <= PortEndQsfp ==> m == Sff8436UpperPage00
  {
    if port > PortEndQsfp then Sff8472A0 else Sff8436UpperPage00
  }

  /** QSFP_INFO_OFFSET / SFP_INFO_OFFSET */
  function InfoOffset(m: MemoryMap): nat {
    match m
    case Sff8436UpperPage00 => 128
    case Sff8472A0 => 0
  }

  /** XCVR_INTFACE_BULK_WIDTH_QSFP / XCVR_INTFACE_BULK_WIDTH_SFP */
  function BulkWidth(m: MemoryMap): nat {
    match m
    case Sff8436UpperPage00 => 20
    case Sff8472A0 => 21
  }

  /** XCVR_HW_REV_WIDTH_QSFP / XCVR_HW_REV_WIDTH_SFP */
  function HwRevWidth(m: MemoryMap): nat {
    match m
    case Sff8436UpperPage00 => 2
    case Sff8472A0 => 4
  }

  /** The serial-ID fields get_transceiver_info reads, each with its own read. */
  datatype Field = InterfaceBulk | VendorName | VendorPn | VendorRev | VendorSn | VendorOui | VendorDate

  /** Offset of a field from the start of the serial-ID page (the XCVR_*_OFFSET constants). */
  function FieldOffset(f: Field): nat {
    match f
    case InterfaceBulk => 0
    case VendorName => 20
    case VendorPn => 40
    case VendorRev => 56
    case VendorSn => 68
    case VendorOui => 37
    case VendorDate => 84
  }

  /** Number of bytes read for a field (the XCVR_*_WIDTH constants). */
  function FieldWidth(m: MemoryMap, f: Field): nat {
    match f
    case InterfaceBulk => BulkWidth(m)
    case VendorName => 16
    case VendorPn => 16
    case VendorRev => HwRevWidth(m)
    case VendorSn => 16
    case VendorOui => 3
    case VendorDate => 8
  }

  /** A run of EEPROM bytes: the reader's `offset` and `num_bytes`. */
  datatype Span = Span(offset: nat, width: nat) {
    predicate Contains(b: int) {
      offset <= b < offset + width
    }
  }

  /** The span read for a field: page base plus field offset, field width. */
  function FieldSpan(m: MemoryMap, f: Field): Span {
    Span(InfoOffset(m) + FieldOffset(f), FieldWidth(m, f))
  }

  /**
   * SFP ports read the SFF-8472 page from byte 0 with a 21-byte bulk and a 4-byte
   * revision; every other port reads SFF-8436 from byte 128 with a 20-byte bulk and a
   * 2-byte revision; every field is read at the page base plus its offset.
   */
  lemma PortSelectsMemoryMap(port: int, f: Field)
    ensures port > PortEndQsfp ==>
      MemoryMapOf(port) == Sff8472A0 && InfoOffset(MemoryMapOf(port)) == 0 &&
      BulkWidth(MemoryMapOf(port)) == 21 && HwRevWidth(MemoryMapOf(port)) == 4
    ensures port <= PortEndQsfp ==>
      MemoryMapOf(port) == Sff8436UpperPage00 && InfoOffset(MemoryMapOf(port)) == 128 &&
      BulkWidth(MemoryMapOf(port)) == 20 && HwRevWidth(MemoryMapOf(port)) == 2
    ensures FieldSpan(MemoryMapOf(port), f).offset == InfoOffset(MemoryMapOf(port)) + FieldOffset(f)
  {
  }

  /** Every read stays inside the first 92 bytes of the serial-ID page. */
  lemma FieldSpansInsidePage(m: MemoryMap, f: Field)
    ensures InfoOffset(m) <= FieldSpan(m, f).offset
    ensures FieldSpan(m, f).offset + FieldSpan(m, f).width <= InfoOffset(m) + 92
  {
  }

  /**
   * On a QSFP port no byte is read twice.  On an SFP port the only byte read twice is
   * byte 20: the 21-byte bulk read ends with the first byte of the vendor name.
   */
  lemma FieldSpansOverlap(m: MemoryMap, f: Field, g: Field, b: int)
    requires f != g && FieldSpan(m, f).Contains(b) && FieldSpan(m, g).Contains(b)
    ensures m == Sff8472A0 && b == 20
    ensures {f, g} == {InterfaceBulk, VendorName}
  {
  }

  predicate Within(lo: int, x: int, hi: int) {
    lo <= x < hi
  }

  /** Python's `range(lo, hi)`: lo, lo + 1, ..., hi - 1. */
  function Range(lo: int, hi: int): (r: seq<int>)
    requires lo <= hi
    ensures |r| == hi - lo
    ensures forall x :: x in r <==> Within(lo, x, hi)
  {
    var r := seq(hi - lo, i => lo + i);
    assert forall x | Within(lo, x, hi) :: r[x - lo] == x;
    r
  }

  /** `qsfp_ports` as written: `range(PORT_START, PORT_END_QSFP)`, which stops at 30. */
  function QsfpPortsAsWritten(): (r: seq<int>)
    ensures |r| == 31 && forall p :: p in r <==> PortStart <= p < PortEndQsfp
  {
    Range(PortStart, PortEndQsfp)
  }

  /** `qsfp_ports` as intended: every port that reads the SFF-8436 layout. */
  function QsfpPorts(): (r: seq<int>)
    ensures |r| == 32 && forall p :: p in r <==> PortStart <= p <= PortEndQsfp
  {
    Range(PortStart, PortEndQsfp + 1)
  }

  /** Port 31 reads the QSFP layout but is missing from `qsfp_ports` as written. */
  lemma QsfpPortsAsWrittenMissesPort31()
    ensures 31 !in QsfpPortsAsWritten()
    ensures MemoryMapOf(31) == Sff8436UpperPage00 && IsPort(31)
  {
  }

  /** The corrected `qsfp_ports` is exactly the valid ports that read the QSFP layout. */
  lemma QsfpPortsMatchMemoryMap(p: int)
    ensures p in QsfpPorts() <==> IsPort(p) && MemoryMapOf(p) == Sff8436UpperPage00
  {
    if IsPort(p) && MemoryMapOf(p) == Sff8436UpperPage00 {
      assert QsfpPorts()[p - PortStart] == p;
    }
  }

  /** `"/sys/bus/i2c/devices/{0}-0050/eeprom".format(bus)` */
  function EepromPath(bus: nat): string {
    "/sys/bus/i2c/devices/" + Decimal(bus) + "-0050/eeprom"
  }

  /**
   * The path is the fixed sysfs prefix, the bus number in decimal, and the fixed
   * suffix; the number between them reads back as the bus.
   */
  lemma EepromPathFormat(bus: nat)
    ensures var path := EepromPath(bus);
      && |path| == 33 + |Decimal(bus)|
      && path[..21] == "/sys/bus/i2c/devices/" && path[|path| - 12..] == "-0050/eeprom"
      && path[21..|path| - 12] == Decimal(bus) && ParseDecimal(path[21..|path| - 12]) == bus
  {
    DecimalRoundTrip(bus);
  }

  /** Different buses have different EEPROM paths. */
  lemma EepromPathInjective(a: nat, b: nat)
    requires EepromPath(a) == EepromPath(b)
    ensures a == b
  {
    var prefix, suffix := "/sys/bus/i2c/devices/", "-0050/eeprom";
    var s := EepromPath(a);
    assert s[|prefix|..|s| - |suffix|] == Decimal(a);
    assert EepromPath(b)[|prefix|..|EepromPath(b)| - |suffix|] == Decimal(b);
    DecimalInjective(a, b);
  }

  /** What the constructor writes into the shared port-to-EEPROM table. */
  function PathTable(): (t: map<int, string>)
    ensures forall p :: p in t <==> IsPort(p)
    ensures forall p :: IsPort(p) ==> p in t && t[p] == EepromPath(p + EepromOffset)
  {
    map x | x in PortSet() :: EepromPath(x + EepromOffset)
  }

  /** The table covers exactly ports 0..33 and gives each of them its own EEPROM. */
  lemma PathTableIsOneToOne(x: int, y: int)
    ensures forall p :: p in PathTable() <==> IsPort(p)
    ensures x in PathTable() && y in PathTable() && PathTable()[x] == PathTable()[y] ==> x == y
  {
    if x in PathTable() && y in PathTable() && PathTable()[x] == PathTable()[y] {
      EepromPathInjective(x + EepromOffset, y + EepromOffset);
    }
  }
}
