/** The AXP192 power-management chip as the firmware drives it: five switchable rails
    whose enable bits share one control register, the voltage read-back registers with
    their fixed linear scaling, and the 12-bit battery-voltage reading. The chip is
    reached only through single-byte register reads and writes, either of which may fail. */
module Axp192 {

  /** The voltage sources, in the order of the C enumeration. */
  datatype Rail = DCDC1 | DCDC2 | DCDC3 | LDO2 | LDO3

  function RailOrdinal(rail: Rail): (n: nat)
    ensures n < 5
  {
    match rail
    case DCDC1 => 0
    case DCDC2 => 1
    case DCDC3 => 2
    case LDO2 => 3
    case LDO3 => 4
  }

  /** The rail whose enumerator value is n: the inverse of RailOrdinal. */
  function RailOfOrdinal(n: int): (rail: Rail)
    requires 0 <= n < 5
    ensures RailOrdinal(rail) == n
  {
    if n == 0 then DCDC1 else if n == 1 then DCDC2 else if n == 2 then DCDC3
    else if n == 3 then LDO2 else LDO3
  }

  predicate IsDcdc(rail: Rail)
  {
    rail.DCDC1? || rail.DCDC2? || rail.DCDC3?
  }

  /** An 8-bit register address. */
  type Reg = r: int | 0 <= r < 256

  // Register addresses of the AXP192.
  const DCDC13_LDO23_CONTROL: Reg := 0x12
  const DCDC2_VOLTAGE: Reg := 0x23
  const DCDC1_VOLTAGE: Reg := 0x26
  const DCDC3_VOLTAGE: Reg := 0x27
  const LDO23_VOLTAGE: Reg := 0x28
  const BATTERY_VOLTAGE: Reg := 0x78

  /** The control-register table: every rail's enable bit is in the same register. */
  function ControlRegister(rail: Rail): Reg
  {
    DCDC13_LDO23_CONTROL
  }

  /** The enable-bit table. */
  function ControlMask(rail: Rail): bv8
  {
    match rail
    case DCDC1 => 1 << 0
    case DCDC2 => 1 << 4
    case DCDC3 => 1 << 1
    case LDO2 => 1 << 2
    case LDO3 => 1 << 3
  }

  predicate IsSingleBit(m: bv8)
  {
    m != 0 && m & (m - 1) == 0
  }

  /** All rails share one register, each owns exactly one bit of it, and no two own the same bit. */
  lemma RailTableIsPartition(a: Rail, b: Rail)
    ensures ControlRegister(a) == ControlRegister(b) == DCDC13_LDO23_CONTROL
    ensures IsSingleBit(ControlMask(a))
    ensures a != b <==> ControlMask(a) & ControlMask(b) == 0
    ensures ControlMask(DCDC1) == 0x01 && ControlMask(DCDC2) == 0x10 && ControlMask(DCDC3) == 0x02
    ensures ControlMask(LDO2) == 0x04 && ControlMask(LDO3) == 0x08
  {
  }

  /** The error a register operation returns: the bus failed on a read or on a write of
      the named register, or the voltage source is not one the driver knows. */
  datatype Error = ReadFailed(reg: Reg) | WriteFailed(reg: Reg) | NotTty

  datatype Result<T> = Ok(value: T) | Err(error: Error)

  /** The chip's registers as the bus sees them: a read of a register outside `regs`
      fails, and a write to a register in `writeFaults` fails and changes nothing. */
  datatype RegisterFile = RegisterFile(regs: map<Reg, bv8>, writeFaults: set<Reg>)

  /** The result of one single-byte register read. */
  function ReadRegister(file: RegisterFile, reg: Reg): Result<bv8>
  {
    if reg in file.regs then Ok(file.regs[reg]) else Err(ReadFailed(reg))
  }

  /** The register value after a rail's enable bit is set (`on`) or cleared: the rail's
      own bit takes the new setting and every other bit keeps its value. */
  function Switched(value: bv8, rail: Rail, on: bool): (v: bv8)
    ensures v & ControlMask(rail) == (if on then ControlMask(rail) else 0)
    ensures v & !ControlMask(rail) == value & !ControlMask(rail)
  {
    if on then value | ControlMask(rail) else value & !ControlMask(rail)
  }

  /** Read-modify-write of a rail's control register, as enable (`on`) and disable do it:
      the result and the register file afterwards. A failed read writes nothing. */
  function SwitchRail(file: RegisterFile, rail: Rail, on: bool): (res: (Result<()>, RegisterFile))
    ensures res.0.Ok? <==> ControlRegister(rail) in file.regs && ControlRegister(rail) !in file.writeFaults
    ensures res.0.Err? ==> res.1 == file
    ensures res.0.Ok? ==>
      && ControlRegister(rail) in res.1.regs
      && res.1.regs[ControlRegister(rail)] & ControlMask(rail) == (if on then ControlMask(rail) else 0)
      && res.1.regs[ControlRegister(rail)] & !ControlMask(rail) == file.regs[ControlRegister(rail)] & !ControlMask(rail)
  {
    var reg := ControlRegister(rail);
    if reg !in file.regs then (Err(ReadFailed(reg)), file)
    else if reg in file.writeFaults then (Err(WriteFailed(reg)), file)
    else (Ok(()), file.(regs := file.regs[reg := Switched(file.regs[reg], rail, on)]))
  }

  /** What get_voltage_enabled reports for a rail: 1 if its enable bit is set, else 0. */
  function EnabledReport(file: RegisterFile, rail: Rail): (r: Result<bv8>)
    ensures r.Ok? <==> ControlRegister(rail) in file.regs
    ensures r.Err? ==> r.error == ReadFailed(ControlRegister(rail))
    ensures r.Ok? ==> (r.value == 1 <==> file.regs[ControlRegister(rail)] & ControlMask(rail) != 0)
    ensures r.Ok? ==> (r.value == 0 <==> file.regs[ControlRegister(rail)] & ControlMask(rail) == 0)
  {
    match ReadRegister(file, ControlRegister(rail))
    case Ok(v) => Ok(if v & ControlMask(rail) != 0 then 1 else 0)
    case Err(e) => Err(e)
  }

  /** A switch changes nothing when it fails; when it succeeds it changes only the
      control register, and there only the rail's own bit. */
  lemma SwitchIsMaskScoped(file: RegisterFile, rail: Rail, on: bool, reg: Reg)
    ensures var (r, after) := SwitchRail(file, rail, on);
      && after.writeFaults == file.writeFaults
      && after.regs.Keys == file.regs.Keys
      && (r.Err? ==> after == file)
      && (ControlRegister(rail) !in file.regs ==> r == Err(ReadFailed(ControlRegister(rail))))
      && (ControlRegister(rail) in file.regs && ControlRegister(rail) in file.writeFaults ==>
            r == Err(WriteFailed(ControlRegister(rail))))
      && (r.Ok? <==> ControlRegister(rail) in file.regs && ControlRegister(rail) !in file.writeFaults)
      && (reg != ControlRegister(rail) && reg in file.regs ==> after.regs[reg] == file.regs[reg])
      && (r.Ok? ==> after.regs[ControlRegister(rail)] & !ControlMask(rail)
                    == file.regs[ControlRegister(rail)] & !ControlMask(rail))
  {
    var control := ControlRegister(rail);
    if control in file.regs && control !in file.writeFaults {
      var after := SwitchRail(file, rail, on).1;
      assert after.regs == file.regs[control := Switched(file.regs[control], rail, on)];
    }
  }

  /** Switching one rail leaves the enable bit of every other rail as it was. */
  lemma SwitchedKeepsOtherRails(value: bv8, rail: Rail, on: bool, other: Rail)
    requires other != rail
    ensures Switched(value, rail, on) & ControlMask(other) == value & ControlMask(other)
  {
    var w := Switched(value, rail, on);
    assert w & !ControlMask(rail) == value & !ControlMask(rail);
    assert ControlMask(other) & !ControlMask(rail) == ControlMask(other) by {
      RailTableIsPartition(rail, other);
    }
    calc {
      w & ControlMask(other);
      w & (ControlMask(other) & !ControlMask(rail));
      (w & !ControlMask(rail)) & ControlMask(other);
      (value & !ControlMask(rail)) & ControlMask(other);
      value & (ControlMask(other) & !ControlMask(rail));
      value & ControlMask(other);
    }
  }

  /** After a successful enable (disable) the rail reports 1 (0), and every other rail
      reports what it reported before. */
  lemma SwitchThenReport(file: RegisterFile, rail: Rail, on: bool, other: Rail)
    requires SwitchRail(file, rail, on).0.Ok?
    ensures EnabledReport(SwitchRail(file, rail, on).1, rail) == Ok(if on then 1 else 0)
    ensures other != rail ==>
      EnabledReport(SwitchRail(file, rail, on).1, other) == EnabledReport(file, other)
  {
    var control := ControlRegister(rail);
    var v := file.regs[control];
    var w := Switched(v, rail, on);
    assert SwitchRail(file, rail, on).1.regs[control] == w;
    if other != rail {
      SwitchedKeepsOtherRails(v, rail, on, other);
    }
  }

  /** Worked examples of switching on the shared register: enabling DCDC2 (bit 4) on
      0b00100101 gives 0b00110101 and leaves 0b00010101 as it is, since that value has
      bit 4 set already; disabling DCDC1 (bit 0) on 0b00110101 gives 0b00110100. */
  lemma SwitchExamples(file: RegisterFile)
    requires DCDC13_LDO23_CONTROL in file.regs && DCDC13_LDO23_CONTROL !in file.writeFaults
    ensures file.regs[DCDC13_LDO23_CONTROL] == 0x25 ==>
      SwitchRail(file, DCDC2, true).1.regs[DCDC13_LDO23_CONTROL] == 0x35
    ensures file.regs[DCDC13_LDO23_CONTROL] == 0x15 ==>
      SwitchRail(file, DCDC2, true).1.regs[DCDC13_LDO23_CONTROL] == 0x15
    ensures file.regs[DCDC13_LDO23_CONTROL] == 0x35 ==>
      SwitchRail(file, DCDC1, false).1.regs[DCDC13_LDO23_CONTROL] == 0x34
  {
  }

  /** The register each rail's output voltage is read from; LDO2 and LDO3 share one. */
  function VoltageRegister(rail: Rail): (reg: Reg)
    ensures reg != ControlRegister(rail) && reg != BATTERY_VOLTAGE && reg != BATTERY_VOLTAGE + 1
    ensures IsDcdc(rail) <==> reg != LDO23_VOLTAGE
  {
    match rail
    case DCDC1 => DCDC1_VOLTAGE
    case DCDC2 => DCDC2_VOLTAGE
    case DCDC3 => DCDC3_VOLTAGE
    case LDO2 => LDO23_VOLTAGE
    case LDO3 => LDO23_VOLTAGE
  }

  /** Each DC-DC converter has a voltage register of its own; the two LDOs share one. */
  lemma VoltageRegisterSharing(a: Rail, b: Rail)
    ensures VoltageRegister(a) == VoltageRegister(b) <==> a == b || (!IsDcdc(a) && !IsDcdc(b))
  {
  }

  /** The raw voltage setting of a rail within its voltage register: a DC-DC converter
      owns the whole byte, LDO2 the high nibble and LDO3 the low nibble. */
  function Unscaled(rail: Rail, raw: bv8): (v: bv8)
    ensures IsDcdc(rail) ==> v == raw
    ensures !IsDcdc(rail) ==> v <= 15
  {
    match rail
    case DCDC1 => raw
    case DCDC2 => raw
    case DCDC3 => raw
    case LDO2 => (raw & 0xF0) >> 4
    case LDO3 => raw & 0x0F
  }

  /** The two LDO settings split the shared register without overlap or loss. */
  lemma LdoNibblesPartitionRegister(raw: bv8)
    ensures (Unscaled(LDO2, raw) << 4) | Unscaled(LDO3, raw) == raw
    ensures Unscaled(LDO2, raw) == raw >> 4
  {
  }

  /** What get_voltage_unscaled returns for a rail. */
  function UnscaledReport(file: RegisterFile, rail: Rail): (r: Result<bv8>)
    ensures r.Ok? <==> VoltageRegister(rail) in file.regs
    ensures r.Err? ==> r.error == ReadFailed(VoltageRegister(rail))
    ensures r.Ok? && IsDcdc(rail) ==> r.value == file.regs[VoltageRegister(rail)]
    ensures r.Ok? && rail.LDO2? ==> r.value == file.regs[LDO23_VOLTAGE] >> 4
    ensures r.Ok? && rail.LDO3? ==> r.value == file.regs[LDO23_VOLTAGE] & 0x0F
  {
    match ReadRegister(file, VoltageRegister(rail))
    case Ok(raw) => Ok(Unscaled(rail, raw))
    case Err(e) => Err(e)
  }

  /** The datasheet's linear calibration from a raw setting to millivolts:
      25 mV steps from 700 mV for a DC-DC converter, 100 mV steps from 1800 mV for an LDO. */
  function Millivolts(rail: Rail, raw: nat): (mv: int)
    ensures IsDcdc(rail) ==> 700 <= mv && (mv - 700) % 25 == 0
    ensures IsDcdc(rail) && raw <= 255 ==> mv <= 7075
    ensures !IsDcdc(rail) ==> 1800 <= mv && (mv - 1800) % 100 == 0
    ensures !IsDcdc(rail) && raw <= 15 ==> mv <= 3300
  {
    if IsDcdc(rail) then raw * 25 + 700 else raw * 100 + 1800
  }

  /** The scaling is strictly increasing, so a reading determines its raw setting. */
  lemma MillivoltsStrictlyIncreasing(rail: Rail, a: nat, b: nat)
    ensures a < b <==> Millivolts(rail, a) < Millivolts(rail, b)
    ensures Millivolts(rail, a) == Millivolts(rail, b) ==> a == b
  {
  }

  /** The end points of both scales. */
  lemma MillivoltsEndPoints()
    ensures Millivolts(DCDC1, 0) == 700 && Millivolts(DCDC3, 255) == 7075
    ensures Millivolts(LDO2, 0) == 1800 && Millivolts(LDO3, 15) == 3300
  {
  }

  /** The 12-bit battery reading: the high byte shifted up a nibble, plus the low
      nibble of the next register. */
  function BatteryRaw(hi: bv8, lo: bv8): (v: bv16)
    ensures v < 4096
    ensures v >> 4 == hi as bv16 && v & 0x0F == (lo & 0x0F) as bv16
  {
    ((hi as bv16) << 4) + ((lo & 0x0F) as bv16)
  }

  /** What get_battery_voltage_unscaled returns: the error of the first read that fails
      (the high byte is read first), or the assembled 12-bit value. */
  function BatteryReport(file: RegisterFile): (r: Result<bv16>)
    ensures r.Ok? <==> BATTERY_VOLTAGE in file.regs && BATTERY_VOLTAGE + 1 in file.regs
    ensures BATTERY_VOLTAGE !in file.regs ==> r == Err(ReadFailed(BATTERY_VOLTAGE))
    ensures BATTERY_VOLTAGE in file.regs && BATTERY_VOLTAGE + 1 !in file.regs ==>
      r == Err(ReadFailed(BATTERY_VOLTAGE + 1))
    ensures r.Ok? ==>
      && r.value < 4096
      && r.value >> 4 == file.regs[BATTERY_VOLTAGE] as bv16
      && r.value & 0x0F == (file.regs[BATTERY_VOLTAGE + 1] & 0x0F) as bv16
  {
    match ReadRegister(file, BATTERY_VOLTAGE)
    case Err(e) => Err(e)
    case Ok(hi) =>
      match ReadRegister(file, BATTERY_VOLTAGE + 1)
      case Err(e) => Err(e)
      case Ok(lo) => Ok(BatteryRaw(hi, lo))
  }

  lemma BatteryExample(file: RegisterFile)
    requires BATTERY_VOLTAGE in file.regs && BATTERY_VOLTAGE + 1 in file.regs
    requires file.regs[BATTERY_VOLTAGE] == 0x12 && file.regs[BATTERY_VOLTAGE + 1] == 0x3F
    ensures BatteryReport(file) == Ok(303)
  {
  }

  /** The chip as the driver holds it: the register file changes only through writes. */
  class Pmic {
    var regs: map<Reg, bv8>
    const writeFaults: set<Reg>

    function State(): RegisterFile
      reads this
    {
      RegisterFile(regs, writeFaults)
    }

    constructor (regs: map<Reg, bv8>, writeFaults: set<Reg>)
      ensures State() == RegisterFile(regs, writeFaults)
    {
      this.regs := regs;
      this.writeFaults := writeFaults;
    }

    /** axp192_read_byte: one register read over the bus. */
    method ReadByte(reg: Reg) returns (r: Result<bv8>)
      ensures reg in regs <==> r.Ok?
      ensures r.Ok? ==> r.value == regs[reg]
      ensures r.Err? ==> r.error == ReadFailed(reg)
    {
      if reg in regs {
        r := Ok(regs[reg]);
      } else {
        r := Err(ReadFailed(reg));
      }
    }

    /** axp192_write: one register write over the bus. */
    method WriteByte(reg: Reg, value: bv8) returns (r: Result<()>)
      modifies this
      ensures reg in writeFaults ==> r == Err(WriteFailed(reg)) && regs == old(regs)
      ensures reg !in writeFaults ==> r == Ok(()) && regs == old(regs)[reg := value]
    {
      if reg in writeFaults {
        r := Err(WriteFailed(reg));
      } else {
        r := Ok(());
        regs := regs[reg := value];
      }
    }

    method GetVoltageEnabled(rail: Rail) returns (r: Result<bv8>)
      ensures r == EnabledReport(State(), rail)
      ensures r.Ok? ==> (r.value == 1 <==> regs[ControlRegister(rail)] & ControlMask(rail) != 0)
      ensures r.Ok? ==> r.value <= 1
    {
      var tmp := ReadByte(ControlRegister(rail));
      if tmp.Err? {
        return Err(tmp.error);
      }
      r := Ok(if tmp.value & ControlMask(rail) != 0 then 1 else 0);
    }

    method VoltageEnable(rail: Rail) returns (r: Result<()>)
      modifies this
      ensures (r, State()) == SwitchRail(old(State()), rail, true)
    {
      var tmp := ReadByte(ControlRegister(rail));
      if tmp.Err? {
        return Err(tmp.error);
      }
      var value := tmp.value | ControlMask(rail);
      r := WriteByte(ControlRegister(rail), value);
    }

    method VoltageDisable(rail: Rail) returns (r: Result<()>)
      modifies this
      ensures (r, State()) == SwitchRail(old(State()), rail, false)
    {
      var tmp := ReadByte(ControlRegister(rail));
      if tmp.Err? {
        return Err(tmp.error);
      }
      var value := tmp.value & !ControlMask(rail);
      r := WriteByte(ControlRegister(rail), value);
    }

    /** The raw voltage setting of the source with enumerator value `source`; a value
        outside the enumeration is refused with NotTty before the bus is touched. */
    method GetVoltageUnscaled(source: int) returns (r: Result<bv8>)
      ensures !(0 <= source < 5) ==> r == Err(NotTty)
      ensures 0 <= source < 5 ==> r == UnscaledReport(State(), RailOfOrdinal(source))
      ensures r.Ok? && 3 <= source ==> r.value <= 15
    {
      if !(0 <= source < 5) {
        return Err(NotTty);
      }
      var rail := RailOfOrdinal(source);
      var tmp := ReadByte(VoltageRegister(rail));
      if tmp.Err? {
        return Err(tmp.error);
      }
      match rail
      case DCDC1 => r := Ok(tmp.value);
      case DCDC2 => r := Ok(tmp.value);
      case DCDC3 => r := Ok(tmp.value);
      case LDO2 => r := Ok((tmp.value & 0xF0) >> 4);
      case LDO3 => r := Ok(tmp.value & 0x0F);
    }

    /** The output voltage of a source in millivolts, scaled from its raw setting. */
    method GetVoltage(source: int) returns (r: Result<int>)
      ensures !(0 <= source < 5) ==> r == Err(NotTty)
      ensures 0 <= source < 5 ==>
        match UnscaledReport(State(), RailOfOrdinal(source))
        case Ok(raw) => r == Ok(Millivolts(RailOfOrdinal(source), raw as nat))
        case Err(e) => r == Err(e)
      ensures r.Ok? && source < 3 ==> 700 <= r.value <= 7075
      ensures r.Ok? && 3 <= source ==> 1800 <= r.value <= 3300
    {
      var unscaled := GetVoltageUnscaled(source);
      if unscaled.Err? {
        return Err(unscaled.error);
      }
      var raw := unscaled.value as int;
      match RailOfOrdinal(source)
      case DCDC1 => r := Ok(raw * 25 + 700);
      case DCDC2 => r := Ok(raw * 25 + 700);
      case DCDC3 => r := Ok(raw * 25 + 700);
      case LDO2 => r := Ok(raw * 100 + 1800);
      case LDO3 => r := Ok(raw * 100 + 1800);
    }

    method GetBatteryVoltageUnscaled() returns (r: Result<bv16>)
      ensures r == BatteryReport(State())
      ensures r.Ok? ==> r.value < 4096
    {
      var hi := ReadByte(BATTERY_VOLTAGE);
      if hi.Err? {
        return Err(hi.error);
      }
      var lo := ReadByte(BATTERY_VOLTAGE + 1);
      if lo.Err? {
        return Err(lo.error);
      }
      r := Ok(((hi.value as bv16) << 4) + ((lo.value & 0x0F) as bv16));
    }
  }
}
