/**
  The estimating core of `SystemMonitor`: a metrics snapshot becomes the power
  drawn by the CPU, the memory and the disk, their IT total and the facility
  total (IT power scaled by the PUE); a wattage becomes the CO2 emitted per
  hour, per day and per year at a fixed grid emission factor.

  All arithmetic is over `real`. `Estimate` and `Rates` are the exact values
  the Python expressions denote before `round`; `CalculatePower` and
  `CalculateEmissions` are the dicts the methods return, with each entry
  rounded as the source rounds it.
 */
module SystemMonitor {
  import opened PyRound

  datatype Option<T> = None | Some(value: T)

  /** Grams of CO2 emitted per kWh drawn from the grid. */
  const GridEmissionFactor: real := 400.0
  /** Power usage effectiveness: facility power over IT power. */
  const BasePue: real := 1.5

  // The coefficients written inline in calculate_power.
  const CpuWattsPerGhz: real := 15.0
  const FallbackFreqGhz: real := 2.5
  const MemoryWattsPerGb: real := 0.5
  const MemoryBaseLoad: real := 0.1
  const DiskActiveWatts: real := 2.0
  const DiskIdleWatts: real := 0.5

  /** metrics["cpu"]: utilisation in percent and the current clock in MHz,
      None where the platform cannot report it. */
  datatype Cpu = Cpu(usage: real, freq: Option<real>)
  /** metrics["memory"]: GiB in use and percent in use. */
  datatype Memory = Memory(used: real, percent: real)
  /** metrics["disk"]: MiB read plus written, as the OS counter reports it. */
  datatype Disk = Disk(io: real)
  /** The entries of a metrics snapshot that the estimate reads. */
  datatype Metrics = Metrics(cpu: Cpu, memory: Memory, disk: Disk)

  /** The ranges the operating system reports these counters in. */
  predicate Plausible(m: Metrics)
  {
    && 0.0 <= m.cpu.usage <= 100.0
    && (m.cpu.freq.Some? ==> m.cpu.freq.value >= 0.0)
    && m.memory.used >= 0.0
    && 0.0 <= m.memory.percent <= 100.0
  }

  /** Python truthiness of the frequency entry: None and 0.0 are false. */
  predicate FreqIsTruthy(freq: Option<real>)
  {
    freq.Some? && freq.value != 0.0
  }

  function FreqGhz(freq: Option<real>): real
  {
    if FreqIsTruthy(freq) then freq.value / 1000.0 else FallbackFreqGhz
  }

  function CpuWatts(cpu: Cpu): real
  {
    (cpu.usage / 100.0) * FreqGhz(cpu.freq) * CpuWattsPerGhz
  }

  function MemoryWatts(mem: Memory): real
  {
    (mem.used * MemoryWattsPerGb) * (mem.percent / 100.0 + MemoryBaseLoad)
  }

  function DiskWatts(disk: Disk): real
  {
    if disk.io > 0.0 then DiskActiveWatts else DiskIdleWatts
  }

  /** The dict calculate_power returns: component wattages, IT and facility
      totals, and the PUE used. */
  datatype Components = Components(cpu: real, memory: real, disk: real)
  datatype Power = Power(components: Components, totalIt: real, totalFacility: real, pue: real)

  /** The power estimate before rounding. */
  function Estimate(m: Metrics): Power
  {
    var cpu := CpuWatts(m.cpu);
    var memory := MemoryWatts(m.memory);
    var disk := DiskWatts(m.disk);
    var totalIt := cpu + memory + disk;
    Power(Components(cpu, memory, disk), totalIt, totalIt * BasePue, BasePue)
  }

  /** calculate_power: each wattage rounded to one decimal, the PUE as is. */
  function CalculatePower(m: Metrics): (r: Power)
    ensures r.pue == BasePue
    ensures r.components.disk == DiskWatts(m.disk)
    ensures IsRoundHalfEven(Estimate(m).components.cpu, 1, r.components.cpu)
    ensures IsRoundHalfEven(Estimate(m).components.memory, 1, r.components.memory)
    ensures IsRoundHalfEven(Estimate(m).totalIt, 1, r.totalIt)
    ensures IsRoundHalfEven(Estimate(m).totalFacility, 1, r.totalFacility)
  {
    var e := Estimate(m);
    DiskWattsOnGrid(m.disk);
    Power(Components(Round(e.components.cpu, 1), Round(e.components.memory, 1), Round(e.components.disk, 1)),
          Round(e.totalIt, 1), Round(e.totalFacility, 1), e.pue)
  }

  /** Both disk wattages have a single decimal, so rounding keeps them. */
  lemma DiskWattsOnGrid(disk: Disk)
    ensures Round(DiskWatts(disk), 1) == DiskWatts(disk)
  {
    assert Pow10(1) == 10.0;
    assert Units(DiskActiveWatts, 1) == 20.0 && Units(DiskIdleWatts, 1) == 5.0;
    RoundOnGrid(DiskWatts(disk), 1);
  }

  /** The dict calculate_emissions returns. */
  datatype Emissions = Emissions(hourly: real, daily: real, annual: real)

  /** Grams of CO2 per hour, kilograms per day and tonnes per year for a
      constant draw of powerW watts, before rounding. */
  function Rates(powerW: real): Emissions
  {
    var hourly := (powerW / 1000.0) * GridEmissionFactor;
    Emissions(hourly, hourly * 24.0 / 1000.0, hourly * 24.0 * 365.0 / 1000000.0)
  }

  /** calculate_emissions: hourly grams to one decimal, daily kilograms to
      two, annual tonnes to three, each rounded from the exact hourly figure. */
  function CalculateEmissions(powerW: real): (r: Emissions)
    ensures IsRoundHalfEven(Rates(powerW).hourly, 1, r.hourly)
    ensures IsRoundHalfEven(Rates(powerW).daily, 2, r.daily)
    ensures IsRoundHalfEven(Rates(powerW).annual, 3, r.annual)
  {
    var e := Rates(powerW);
    Emissions(Round(e.hourly, 1), Round(e.daily, 2), Round(e.annual, 3))
  }

  /** One dashboard refresh: the emissions are computed from the facility
      total as already rounded for display. */
  function DashboardReading(m: Metrics): (Power, Emissions)
  {
    var power := CalculatePower(m);
    (power, CalculateEmissions(power.totalFacility))
  }

  // ---------------------------------------------------------------------
  // The CPU term.

  /** The frequency falls back to 2.5 GHz exactly when the entry is None or
      0.0; any other reading is converted from MHz to GHz. */
  lemma FrequencyFallback(freq: Option<real>)
    ensures freq == None || freq == Some(0.0) ==> FreqGhz(freq) == FallbackFreqGhz
    ensures freq.Some? && freq.value != 0.0 ==> FreqGhz(freq) == freq.value / 1000.0
    ensures FreqGhz(freq) == FallbackFreqGhz <==> (!FreqIsTruthy(freq) || freq.value == 2500.0)
    ensures FreqIsTruthy(freq) ==> FreqGhz(freq) * 1000.0 == freq.value
  {
  }

  /** Closed form of the CPU term: usage x MHz x 15 / 100000 with a reading,
      usage x 0.375 with the fallback. */
  lemma CpuWattsClosedForm(cpu: Cpu)
    ensures FreqIsTruthy(cpu.freq) ==> CpuWatts(cpu) == cpu.usage * cpu.freq.value * 15.0 / 100000.0
    ensures !FreqIsTruthy(cpu.freq) ==> CpuWatts(cpu) == cpu.usage * 0.375
  {
  }

  /** Between idle and full load the CPU draws between 0 and 15 W per GHz. */
  lemma CpuWattsBounds(cpu: Cpu)
    requires 0.0 <= cpu.usage <= 100.0
    requires cpu.freq.Some? ==> cpu.freq.value >= 0.0
    ensures 0.0 <= CpuWatts(cpu) <= FreqGhz(cpu.freq) * CpuWattsPerGhz
  {
    var g := FreqGhz(cpu.freq);
    assert g >= 0.0;
    MulLeq(0.0, cpu.usage / 100.0, g * CpuWattsPerGhz);
    MulLeq(cpu.usage / 100.0, 1.0, g * CpuWattsPerGhz);
  }

  /** Raising the utilisation, all else fixed, never lowers the CPU term. */
  lemma CpuWattsMonotone(lo: Cpu, hi: Cpu)
    requires lo.freq == hi.freq && lo.usage <= hi.usage
    requires hi.freq.Some? ==> hi.freq.value >= 0.0
    ensures CpuWatts(lo) <= CpuWatts(hi)
  {
    var g := FreqGhz(hi.freq);
    assert g >= 0.0;
    MulLeq(lo.usage / 100.0, hi.usage / 100.0, g * CpuWattsPerGhz);
  }

  // ---------------------------------------------------------------------
  // The memory term.

  /** Memory draws 0.05 W per GiB when idle plus 0.005 W per GiB per percent
      of utilisation; it is never negative for non-negative readings. */
  lemma MemoryWattsBounds(mem: Memory)
    requires mem.used >= 0.0 && mem.percent >= 0.0
    ensures MemoryWatts(mem) == mem.used * 0.05 + mem.used * mem.percent * 0.005
    ensures MemoryWatts(mem) >= mem.used * 0.05 >= 0.0
  {
    MulLeq(0.0, mem.percent, mem.used);
  }

  /** More memory in use, or a higher percentage, never lowers the memory term. */
  lemma MemoryWattsMonotone(lo: Memory, hi: Memory)
    requires 0.0 <= lo.used <= hi.used
    requires 0.0 <= lo.percent <= hi.percent
    ensures MemoryWatts(lo) <= MemoryWatts(hi)
  {
    var u, v := lo.used * MemoryWattsPerGb, hi.used * MemoryWattsPerGb;
    var a, b := lo.percent / 100.0 + MemoryBaseLoad, hi.percent / 100.0 + MemoryBaseLoad;
    assert MemoryWatts(lo) == u * a && MemoryWatts(hi) == v * b;
    MulLeq(u, v, a);
    MulLeq(a, b, v);
    assert a * v == v * a;
  }

  // ---------------------------------------------------------------------
  // The disk term.

  /** The disk term is a two-level step: 2 W with any I/O recorded, 0.5 W
      otherwise, and nothing in between. */
  lemma DiskWattsStep(disk: Disk)
    ensures DiskWatts(disk) == DiskActiveWatts <==> disk.io > 0.0
    ensures DiskWatts(disk) == DiskIdleWatts <==> disk.io <= 0.0
  {
  }

  // ---------------------------------------------------------------------
  // Totals.

  /** The IT total is the sum of the three terms; the facility total adds
      half of it again for cooling and distribution, PUE 1.5. */
  lemma EstimateTotals(m: Metrics)
    ensures var e := Estimate(m);
      && e.pue == 1.5
      && e.totalIt == CpuWatts(m.cpu) + MemoryWatts(m.memory) + DiskWatts(m.disk)
      && e.totalFacility - e.totalIt == e.totalIt / 2.0
      && (e.totalFacility >= e.totalIt <==> e.totalIt >= 0.0)
  {
  }

  /** With no CPU load and no memory in use only the disk constant remains. */
  lemma IdleHostDrawsOnlyDisk(m: Metrics)
    requires m.cpu.usage == 0.0 && m.memory.used == 0.0
    ensures Estimate(m).totalIt == DiskWatts(m.disk)
    ensures Estimate(m).totalFacility == (if m.disk.io > 0.0 then 3.0 else 0.75)
  {
  }

  /** For plausible readings every term is non-negative and the facility
      total is at least the IT total, which is at least the idle disk. */
  lemma EstimateNonNegative(m: Metrics)
    requires Plausible(m)
    ensures var e := Estimate(m);
      && e.components.cpu >= 0.0 && e.components.memory >= 0.0 && e.components.disk >= DiskIdleWatts
      && e.totalFacility >= e.totalIt >= DiskIdleWatts
  {
    CpuWattsBounds(m.cpu);
    MemoryWattsBounds(m.memory);
  }

  /** A busier CPU, all else fixed, never lowers the facility total. */
  lemma FacilityMonotoneInCpuUsage(m: Metrics, busier: real)
    requires m.cpu.usage <= busier
    requires m.cpu.freq.Some? ==> m.cpu.freq.value >= 0.0
    ensures var hi := m.(cpu := m.cpu.(usage := busier));
      Estimate(m).totalFacility <= Estimate(hi).totalFacility
  {
    CpuWattsMonotone(m.cpu, m.cpu.(usage := busier));
  }

  /** The displayed wattages are each within 0.05 W of the exact ones, and
      the displayed disk wattage is exact. */
  lemma ReportedPowerError(m: Metrics)
    ensures var r, e := CalculatePower(m), Estimate(m);
      && -0.05 <= r.components.cpu - e.components.cpu <= 0.05
      && -0.05 <= r.components.memory - e.components.memory <= 0.05
      && r.components.disk == e.components.disk
      && -0.05 <= r.totalIt - e.totalIt <= 0.05
      && -0.05 <= r.totalFacility - e.totalFacility <= 0.05
  {
    var r, e := CalculatePower(m), Estimate(m);
    assert Pow10(1) == 10.0;
    HalfEvenError(e.components.cpu, 1, r.components.cpu);
    HalfEvenError(e.components.memory, 1, r.components.memory);
    HalfEvenError(e.totalIt, 1, r.totalIt);
    HalfEvenError(e.totalFacility, 1, r.totalFacility);
  }

  // ---------------------------------------------------------------------
  // Emissions.

  /** Energy in kWh drawn at powerW watts over the given number of hours. */
  function KilowattHours(powerW: real, hours: real): real
  {
    powerW * hours / 1000.0
  }

  /** Each figure is the energy of its period times the grid factor, in the
      figure's own mass unit: grams per hour, kilograms per day (24 h),
      tonnes per year (8760 h). */
  lemma RatesFromEnergy(powerW: real)
    ensures Rates(powerW).hourly == KilowattHours(powerW, 1.0) * GridEmissionFactor
    ensures Rates(powerW).daily == KilowattHours(powerW, 24.0) * GridEmissionFactor / 1000.0
    ensures Rates(powerW).annual == KilowattHours(powerW, 8760.0) * GridEmissionFactor / 1000000.0
  {
  }

  /** The unit relations between the three figures. */
  lemma RatesUnits(powerW: real)
    ensures var e := Rates(powerW);
      && e.hourly == powerW * 0.4
      && e.daily == e.hourly * 24.0 / 1000.0
      && e.annual == e.hourly * 8760.0 / 1000000.0
      && e.annual == e.daily * 365.0 / 1000.0
  {
  }

  /** Emissions are linear in the power drawn: additive and homogeneous. */
  lemma RatesLinear(a: real, b: real, k: real)
    ensures Rates(a + b) == Emissions(Rates(a).hourly + Rates(b).hourly,
                                      Rates(a).daily + Rates(b).daily,
                                      Rates(a).annual + Rates(b).annual)
    ensures Rates(k * a) == Emissions(k * Rates(a).hourly, k * Rates(a).daily, k * Rates(a).annual)
  {
  }

  /** More power never means fewer emissions, and no power means none. */
  lemma RatesMonotone(lo: real, hi: real)
    requires lo <= hi
    ensures Rates(0.0) == Emissions(0.0, 0.0, 0.0)
    ensures Rates(lo).hourly <= Rates(hi).hourly
    ensures Rates(lo).daily <= Rates(hi).daily
    ensures Rates(lo).annual <= Rates(hi).annual
  {
  }

  /** The dashboard feeds the rounded facility total into the emissions
      estimate; that costs at most 0.02 g/h against the exact total. */
  lemma DashboardHourlyError(m: Metrics)
    ensures var exact := Rates(Estimate(m).totalFacility).hourly;
      var shown := Rates(DashboardReading(m).0.totalFacility).hourly;
      -0.02 <= shown - exact <= 0.02
  {
    ReportedPowerError(m);
  }

  // ---------------------------------------------------------------------
  // A worked example: 50 % of a 2 GHz CPU, 4 GiB of memory at 25 %, no disk I/O.

  const Example: Metrics := Metrics(Cpu(50.0, Some(2000.0)), Memory(4.0, 25.0), Disk(0.0))

  lemma WorkedExample()
    ensures Estimate(Example) == Power(Components(15.0, 0.7, 0.5), 16.2, 24.3, 1.5)
    ensures Rates(24.3) == Emissions(9.72, 0.23328, 0.0851472)
    ensures CalculatePower(Example) == Power(Components(15.0, 0.7, 0.5), 16.2, 24.3, 1.5)
    ensures CalculateEmissions(24.3) == Emissions(9.7, 0.23, 0.085)
  {
    var e := Estimate(Example);
    assert Pow10(1) == 10.0 && Pow10(2) == 100.0 && Pow10(3) == 1000.0;
    RoundOnGrid(15.0, 1);
    RoundOnGrid(0.7, 1);
    RoundOnGrid(16.2, 1);
    RoundOnGrid(24.3, 1);
  }

  /** The displayed total need not be the sum of the displayed components:
      0.045 W of CPU and 0.045 W of memory each show as 0.0 W, while the IT
      total of 0.59 W shows as 0.6 W beside a 0.5 W disk. */
  lemma DisplayedTotalIsNotDisplayedSum()
    ensures var m := Metrics(Cpu(0.12, None), Memory(0.9, 0.0), Disk(0.0));
      var r := CalculatePower(m);
      r.components == Components(0.0, 0.0, 0.5) && r.totalIt == 0.6
  {
    var m := Metrics(Cpu(0.12, None), Memory(0.9, 0.0), Disk(0.0));
    var e := Estimate(m);
    assert e.components == Components(0.045, 0.045, 0.5) && e.totalIt == 0.59;
    assert Pow10(1) == 10.0;
    RoundToUnits(0.045, 1, 0);
    RoundToUnits(0.59, 1, 6);
  }

  /** A tie: 1 GiB used at 60 % gives exactly 0.35 W of memory, and the
      returned entry is the even neighbour, 0.4 W. */
  lemma MemoryTieRoundsEven()
    ensures var m := Metrics(Cpu(0.0, None), Memory(1.0, 60.0), Disk(0.0));
      Estimate(m).components.memory == 0.35 && CalculatePower(m).components.memory == 0.4
  {
    var m := Metrics(Cpu(0.0, None), Memory(1.0, 60.0), Disk(0.0));
    assert Estimate(m).components.memory == 0.35;
    assert Pow10(1) == 10.0;
    RoundToUnits(0.35, 1, 4);
  }

  // ---------------------------------------------------------------------

  /** Multiplying both sides of a <= b by c >= 0. */
  lemma MulLeq(a: real, b: real, c: real)
    requires a <= b && c >= 0.0
    ensures a * c <= b * c
  {
  }
}
