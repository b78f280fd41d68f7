/**
 * The switch CPLD (swpld1) registers behind the per-port status files:
 * `sfp_is_present` (ModPrsL, active low), `qsfp_lpmode` (LPMode, active high) and
 * `qsfp_reset` (ResetL, active low).  A register is the integer its sysfs file
 * holds in hexadecimal; `None` stands for a file that cannot be opened.
 */
module Registers {
  import opened Outcomes
  import opened Bits
  import opened Layout

  /** A port the QSFP control registers have a bit for. */
  predicate IsQsfpPort(port: int) {
    PortStart <= port <= PortEndQsfp
  }

  /** The shift get_presence uses: `port_end - port_num + 6`; each port has its own bit in 6..39. */
  function PresenceBit(port: int): (k: nat)
    requires IsPort(port)
    ensures 6 <= k <= 39 && k == 39 - port
  {
    PortEnd - port + 6
  }

  /**
   * get_presence: False for an index outside the ports or an unreadable file;
   * otherwise True when the port's bit, masked out of the register, is zero.
   */
  function Presence(port: int, reg: Option<nat>): (r: bool)
    ensures r ==> IsPort(port) && reg.Some?
  {
    if port < PortStart || port > PortEnd then false
    else match reg
      case None => false
      case Some(v) => And(v, Pow2(PresenceBit(port))) == 0
  }

  /** A port is present exactly when its ModPrsL bit, 39 - port, reads 0. */
  lemma PresenceIsActiveLow(port: int, reg: Option<nat>)
    ensures Presence(port, reg) <==> IsPort(port) && reg.Some? && Bit(reg.value, 39 - port) == 0
  {
    if IsPort(port) && reg.Some? {
      AndWithPow2(reg.value, PresenceBit(port));
    }
  }

  /** A port's presence depends on its own bit only: the other ports' bits do not matter. */
  lemma PresenceReadsOwnBit(port: int, v: nat, w: nat)
    requires IsPort(port) && Bit(v, 39 - port) == Bit(w, 39 - port)
    ensures Presence(port, Some(v)) == Presence(port, Some(w))
  {
    PresenceIsActiveLow(port, Some(v));
    PresenceIsActiveLow(port, Some(w));
  }

  /**
   * The shift get_lpmode and get_reset_status use.  `1 << (port_end - port_num) - 1`
   * parses as `1 << ((port_end - port_num) - 1)`, so the bit is 32 - port, in 1..32.
   */
  function QsfpControlBit(port: int): (k: nat)
    requires IsQsfpPort(port)
    ensures 1 <= k <= 32 && k == 32 - port
  {
    (PortEnd - port) - 1
  }

  /**
   * get_lpmode as written: when the file cannot be opened it prints the error and
   * carries on, so the read of the never-assigned `reg_file` raises UnboundLocalError.
   */
  function LpmodeAsWritten(port: int, reg: Option<nat>): (r: Outcome<bool>)
    ensures r.Raised? ==> r.error == UnboundLocalError && IsQsfpPort(port) && reg.None?
    ensures r == Returned(true) ==> IsQsfpPort(port) && reg.Some?
  {
    if port < PortStart || port > PortEndQsfp then Returned(false)
    else match reg
      case None => Raised(UnboundLocalError)
      case Some(v) => Returned(And(v, Pow2(QsfpControlBit(port))) != 0)
  }

  /** get_lpmode as intended: an unreadable file reads as False, as in the other getters. */
  function Lpmode(port: int, reg: Option<nat>): (r: bool)
    ensures r ==> IsQsfpPort(port) && reg.Some?
  {
    if port < PortStart || port > PortEndQsfp then false
    else match reg
      case None => false
      case Some(v) => And(v, Pow2(QsfpControlBit(port))) != 0
  }

  /** The two differ only where the file cannot be opened for a QSFP port. */
  lemma LpmodeAsWrittenRaisesOnlyWithoutFile(port: int, reg: Option<nat>)
    ensures LpmodeAsWritten(port, reg) ==
      if IsQsfpPort(port) && reg.None? then Raised(UnboundLocalError) else Returned(Lpmode(port, reg))
  {
  }

  /** A port is in low-power mode exactly when its LPMode bit, 32 - port, reads 1; SFP ports never are. */
  lemma LpmodeIsActiveHigh(port: int, reg: Option<nat>)
    ensures Lpmode(port, reg) <==> IsQsfpPort(port) && reg.Some? && Bit(reg.value, 32 - port) == 1
  {
    if IsQsfpPort(port) && reg.Some? {
      AndWithPow2(reg.value, QsfpControlBit(port));
    }
  }

  /** What a call of get_reset_status ends with, and the register values it writes, in order. */
  datatype ResetRun = ResetRun(result: Outcome<bool>, writes: seq<nat>)

  /**
   * get_reset_status as written: it clears the port's bit and writes the register
   * back, then `time.sleep(1)` raises NameError because `time` is not imported.
   * (Were it imported, the next line would raise NameError for the undefined
   * QSFP_RESET_REGISTER_DEVICE_FILE.)
   */
  function ResetAsWritten(port: int, reg: Option<nat>): (r: ResetRun)
    ensures r.result != Returned(true)
    ensures r.result.Raised? <==> |r.writes| == 1
    ensures |r.writes| <= 1 && (r.writes != [] ==> IsQsfpPort(port) && reg.Some?)
  {
    if port < PortStart || port > PortEndQsfp then ResetRun(Returned(false), [])
    else match reg
      case None => ResetRun(Returned(false), [])
      case Some(v) =>
        var mask := Pow2(QsfpControlBit(port));
        ResetRun(Raised(NameError("time")), [AndNot(v, mask)])
  }

  /**
   * get_reset_status as intended: clear the port's bit (ResetL low, port in reset),
   * wait, set it again (port out of reset) in the same register, return True.
   */
  function Reset(port: int, reg: Option<nat>): (r: ResetRun)
    ensures r.result.Returned?
    ensures r.result.value <==> |r.writes| == 2
    ensures r.result.value <==> IsQsfpPort(port) && reg.Some?
    ensures r.writes == [] || |r.writes| == 2
  {
    if port < PortStart || port > PortEndQsfp then ResetRun(Returned(false), [])
    else match reg
      case None => ResetRun(Returned(false), [])
      case Some(v) =>
        var mask := Pow2(QsfpControlBit(port));
        var low := AndNot(v, mask);
        ResetRun(Returned(true), [low, Or(low, mask)])
  }

  /** SFP ports and unreadable registers: False, and nothing is written. */
  lemma ResetSkipsOtherPorts(port: int, reg: Option<nat>)
    requires !IsQsfpPort(port) || reg.None?
    ensures Reset(port, reg) == ResetRun(Returned(false), [])
    ensures ResetAsWritten(port, reg) == ResetRun(Returned(false), [])
  {
  }

  /**
   * A reset pulses the port's ResetL bit: the first write has it clear, the second has
   * it set, and both keep every other bit of the register as it was.
   */
  lemma ResetPulsesOwnBit(port: int, v: nat)
    requires IsQsfpPort(port)
    ensures Reset(port, Some(v)).result == Returned(true)
    ensures |Reset(port, Some(v)).writes| == 2
    ensures Bit(Reset(port, Some(v)).writes[0], 32 - port) == 0
    ensures Bit(Reset(port, Some(v)).writes[1], 32 - port) == 1
    ensures forall j: nat :: j != 32 - port ==>
      Bit(Reset(port, Some(v)).writes[0], j) == Bit(v, j) &&
      Bit(Reset(port, Some(v)).writes[1], j) == Bit(v, j)
  {
    var k := QsfpControlBit(port);
    var mask := Pow2(k);
    var low := AndNot(v, mask);
    forall j: nat
      ensures Bit(low, j) == if j == k then 0 else Bit(v, j)
      ensures Bit(Or(low, mask), j) == if j == k then 1 else Bit(v, j)
    {
      BitOfAndNot(v, mask, j);
      BitOfPow2(k, j);
      BitOfOr(low, mask, j);
    }
  }

  /** A port that was out of reset ends with the register exactly as it was. */
  lemma ResetRestoresRegister(port: int, v: nat)
    requires IsQsfpPort(port) && Bit(v, 32 - port) == 1
    ensures Reset(port, Some(v)).writes[1] == v
  {
    ResetPulsesOwnBit(port, v);
    var last := Reset(port, Some(v)).writes[1];
    forall j: nat ensures Bit(last, j) == Bit(v, j) {
    }
    BitsDetermineValue(last, v);
  }

  /** As written, a reset leaves the port held in reset and escapes with NameError. */
  lemma ResetAsWrittenLeavesPortInReset(port: int, v: nat)
    requires IsQsfpPort(port)
    ensures ResetAsWritten(port, Some(v)).result == Raised(NameError("time"))
    ensures |ResetAsWritten(port, Some(v)).writes| == 1
    ensures ResetAsWritten(port, Some(v)).writes[0] == Reset(port, Some(v)).writes[0]
    ensures Bit(ResetAsWritten(port, Some(v)).writes[0], 32 - port) == 0
  {
    ResetPulsesOwnBit(port, v);
  }

  /**
   * A register file of the CPLD, as the port code sees it: whether it can be
   * opened, the value it reads back, and every value written to it, in order
   * (each written as `hex(value)`).
   */
  class RegisterFile {
    var openable: bool
    var value: nat
    var writes: seq<nat>

    /** What opening and reading the file yields. */
    function Content(): Option<nat>
      reads this
    {
      if openable then Some(value) else None
    }

    constructor (openable: bool, value: nat)
      ensures this.openable == openable && this.value == value && writes == []
    {
      this.openable := openable;
      this.value := value;
      writes := [];
    }

    /** `seek(0)` and `write(hex(v))`: the register now holds v. */
    method Write(v: nat)
      requires openable
      modifies this
      ensures openable && value == v && writes == old(writes) + [v]
    {
      value := v;
      writes := writes + [v];
    }
  }
}
