/**
 * The integer bookkeeping behind the measurements of the C harness
 * (asm_test/comprehensive_asm_test.c lines 18-71): the 64-bit time-stamp
 * counter built from the two halves `rdtsc` leaves in edx:eax, the
 * model-specific registers read through `/dev/cpu/<n>/msr`, and the guard and
 * the scale exponent of `get_energy_joules`.
 *
 * The device file is modelled as a value: either it cannot be opened, or it
 * answers a read at a register offset with the register's value, or with a
 * short read when the register is not there. Both failures read as 0.
 */
module Counters {
  import opened TextFormat
  import opened MachineWords

  /** Lines 33-37: `(uint64_t)lo | ((uint64_t)hi << 32)`; the halves do not overlap, so `|` adds. */
  function Rdtsc(lo: U32, hi: U32): (t: U64)
    ensures t % Two32 == lo
    ensures t / Two32 == hi
  {
    hi * Two32 + lo
  }

  /** Every 64-bit counter value is composed from exactly one pair of halves. */
  lemma RdtscRoundTrip(t: U64)
    ensures t % Two32 < Two32 && t / Two32 < Two32
    ensures Rdtsc(t % Two32, t / Two32) == t
  {
  }

  /** A later reading with the same high half has the larger low half, and a larger high half always wins. */
  lemma RdtscOrder(lo1: U32, hi1: U32, lo2: U32, hi2: U32)
    ensures Rdtsc(lo1, hi1) < Rdtsc(lo2, hi2) <==> hi1 < hi2 || (hi1 == hi2 && lo1 < lo2)
  {
    if hi1 < hi2 {
      assert Rdtsc(lo1, hi1) < (hi1 + 1) * Two32 <= hi2 * Two32 <= Rdtsc(lo2, hi2);
    } else if hi2 < hi1 {
      assert Rdtsc(lo2, hi2) < (hi2 + 1) * Two32 <= hi1 * Two32 <= Rdtsc(lo1, hi1);
    }
  }

  /** Lines 19-21: the AMD energy registers. */
  const MsrPowerUnit: nat := 0xC0010299
  const MsrCoreEnergy: nat := 0xC001029A
  const MsrPkgEnergy: nat := 0xC001029B

  /** What `/dev/cpu/<cpu>/msr` offers: nothing (open fails), or the registers it can read. */
  datatype MsrDevice =
    | Unavailable
    | Device(registers: map<nat, U64>)

  /**
   * Lines 40-58: `read_msr`. A failed open (line 47) and a short read
   * (line 51) both return 0; otherwise the register's value.
   */
  function ReadMsr(dev: MsrDevice, reg: nat): (v: U64)
    ensures v != 0 ==> dev.Device? && reg in dev.registers && v == dev.registers[reg]
    ensures dev.Device? && reg in dev.registers ==> v == dev.registers[reg]
  {
    match dev
    case Unavailable => 0
    case Device(registers) => if reg in registers then registers[reg] else 0
  }

  /** Line 69: `(unit_raw >> 8) & 0x1F`, bits 8 to 12 of the power-unit register. */
  function ScaleExponent(unitRaw: U64): (e: nat)
    ensures e < 32
  {
    (unitRaw / 256) % 32
  }

  /** The exponent is exactly the five-bit field at bit 8, whatever the bits around it hold. */
  lemma ScaleExponentField(high: nat, e: nat, low: nat)
    requires e < 32 && low < 256
    requires high * 8192 + e * 256 + low < Two64
    ensures ScaleExponent(high * 8192 + e * 256 + low) == e
  {
    var u := high * 8192 + e * 256 + low;
    assert u / 256 == high * 32 + e by {
      assert u == (high * 32 + e) * 256 + low;
    }
    assert (high * 32 + e) % 32 == e;
  }

  /**
   * The joule value of `get_energy_joules`, kept exact: `NoReading` is the
   * `0.0` of line 66, `Scaled(raw, e)` stands for `raw / 2^e` (lines 69-70).
   */
  datatype EnergyReading =
    | NoReading
    | Scaled(raw: U64, exponent: nat)

  /** The value a reading stands for, in exact arithmetic. */
  function Joules(r: EnergyReading): real
  {
    match r
    case NoReading => 0.0
    case Scaled(raw, e) => raw as real / Pow(2, e) as real
  }

  /**
   * Lines 63-71: read the core energy counter and the power unit; if either
   * read gives 0 there is no reading, otherwise the counter scaled by 2^-e.
   * The divisor is the corrected `2^e`; the `int` shift as written is
   * IntShiftAsWritten below.
   */
  function GetEnergyJoules(dev: MsrDevice): (r: EnergyReading)
    ensures r.NoReading? <==> ReadMsr(dev, MsrCoreEnergy) == 0 || ReadMsr(dev, MsrPowerUnit) == 0
    ensures r.Scaled? ==>
      r.raw == ReadMsr(dev, MsrCoreEnergy) && r.exponent == ScaleExponent(ReadMsr(dev, MsrPowerUnit))
  {
    var energyRaw := ReadMsr(dev, MsrCoreEnergy);
    var unitRaw := ReadMsr(dev, MsrPowerUnit);
    if energyRaw == 0 || unitRaw == 0 then NoReading
    else Scaled(energyRaw, ScaleExponent(unitRaw))
  }

  /** The guard: the result is exactly 0 when either read is 0, and positive otherwise. */
  lemma EnergyZeroGuard(dev: MsrDevice)
    ensures Joules(GetEnergyJoules(dev)) == 0.0 <==>
      ReadMsr(dev, MsrCoreEnergy) == 0 || ReadMsr(dev, MsrPowerUnit) == 0
    ensures Joules(GetEnergyJoules(dev)) >= 0.0
  {
    var r := GetEnergyJoules(dev);
    if r.Scaled? {
      PositiveQuotient(r.raw, Pow(2, r.exponent));
    }
  }

  lemma PositiveQuotient(a: nat, b: nat)
    requires a > 0 && b > 0
    ensures a as real / b as real > 0.0
  {
  }

  /** Without the device file there is never a reading. */
  lemma NoDeviceNoEnergy()
    ensures GetEnergyJoules(Unavailable) == NoReading
  {
  }

  /**
   * Line 69 as written: `1 << e` is a shift of the `int` constant 1. It is
   * defined only while 2^e fits in an `int`, that is for e <= 30; for e = 31
   * the shift overflows, which C leaves undefined (`None`).
   */
  function IntShiftAsWritten(e: nat): (r: Option<int>)
    requires e < 32
    ensures r.Some? <==> e <= 30
    ensures r.Some? ==> r.value == Pow(2, e)
  {
    Pow2Bounds(e);
    if Pow(2, e) <= IntMax then Some(Pow(2, e)) else None
  }

  datatype Option<T> = None | Some(value: T)

  /** A power-unit register whose five-bit field holds 31 drives the shift as written out of range. */
  lemma IntShiftOverflows()
    ensures ScaleExponent(0x1F00) == 31
    ensures IntShiftAsWritten(ScaleExponent(0x1F00)).None?
  {
    ScaleExponentField(0, 31, 0);
    Pow2Bounds(31);
  }

  /**
   * The evidently intended divisor: `2^e` computed in 64 bits
   * (`1ULL << e`), defined and positive for every exponent the field can hold.
   */
  function EnergyDivisor(e: nat): (d: U64)
    requires e < 32
    ensures d >= 1 && d == Pow(2, e)
  {
    Pow2Bounds(e);
    Pow(2, e)
  }

  lemma Pow2Bounds(e: nat)
    ensures e <= 30 ==> Pow(2, e) <= IntMax
    ensures e >= 31 ==> Pow(2, e) > IntMax
    ensures e < 64 ==> Pow(2, e) < Two64
  {
    Pow2Exact(30);
    Pow2Add(30, 1);
    Pow2Add(30, 30);
    Pow2Add(60, 3);
    assert Pow(2, 3) == 8;
    if e <= 30 {
      Pow2Monotone(e, 30);
    } else {
      Pow2Monotone(31, e);
    }
    if e < 64 {
      Pow2Monotone(e, 63);
    }
  }

  lemma {:induction false} Pow2Monotone(a: nat, b: nat)
    requires a <= b
    ensures Pow(2, a) <= Pow(2, b)
    decreases b - a
  {
    if a < b {
      Pow2Monotone(a, b - 1);
    }
  }

  lemma Pow2Exact(e: nat)
    requires e == 30
    ensures Pow(2, e) == 0x4000_0000
  {
    assert Pow(2, 10) == 1024;
    Pow2Add(10, 10);
    Pow2Add(20, 10);
  }

  lemma {:induction false} Pow2Add(a: nat, b: nat)
    ensures Pow(2, a + b) == Pow(2, a) * Pow(2, b)
    decreases b
  {
    if b > 0 {
      Pow2Add(a, b - 1);
    }
  }

  /** The corrected divisor agrees with the shift as written wherever the latter is defined. */
  lemma DivisorAgreesWhereDefined(e: nat)
    requires e < 32
    ensures IntShiftAsWritten(e).Some? ==> IntShiftAsWritten(e).value == EnergyDivisor(e)
  {
  }
}
