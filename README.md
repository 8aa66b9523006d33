# SystemMonitor power and emissions estimate, in Dafny

`SystemMonitor` samples a host's counters and turns them into two estimates.

- **Power.** `calculate_power` gives a CPU wattage (utilisation × clock in GHz × 15 W/GHz, with 2.5 GHz when the clock is unknown). It gives a memory wattage (GiB used × 0.5 W × (percent/100 + 0.1)). It gives a disk wattage (2 W when the disk I/O counter is positive, 0.5 W otherwise). From these it gives the IT total and the facility total, which is IT × a PUE of 1.5.
- **Emissions.** `calculate_emissions` turns a wattage into grams of CO2 per hour at 400 g/kWh, then into kilograms per day and tonnes per year.

The model has two modules.

- `PyRound` (python_round.dfy) models Python's `round(x, n)`: the nearest multiple of 10^-n, with ties going to the even multiple. `IsRoundHalfEven` is the defining property. `Round` meets it, and `RoundIsUnique` shows that nothing else does.
- `SystemMonitor` (system_monitor.dfy) holds the constants, the metrics record and the two operations.
  - The metrics record holds only the dict entries the estimate reads.
  - `Estimate` and `Rates` are the exact values of the Python expressions, over `real`.
  - `CalculatePower` and `CalculateEmissions` are the returned dicts, each entry rounded as the source rounds it.
  - `DashboardReading` is the data flow of one dashboard refresh: the emissions are computed from the facility total after it was rounded.

The frequency fallback follows Python truthiness: a missing reading (`None`) and a reading of `0.0` both give 2.5 GHz.

The disk term depends on the I/O counter only (s.py:71). The emissions are returned rounded to 1, 2 and 3 decimals (s.py:92-94); at 24.3 W that is 9.7 g/h, 0.23 kg/day and 0.085 t/year.

The I/O figure is `read_bytes + write_bytes` of the counters since boot (s.py:58). It is positive on almost any running host, so in practice the disk term is 2 W. The model keeps the step exactly as written.

## Model

| member | source | states |
|---|---|---|
| `SystemMonitor.CalculatePower` | s.py:67-85 | the returned `pue` is always 1.5; the disk entry is the exact step value; the CPU, memory, IT and facility entries are the round-half-even one-decimal values of the exact terms |
| `SystemMonitor.CalculateEmissions` | s.py:88-95 | the hourly, daily and annual entries are the exact figures rounded half-even to 1, 2 and 3 decimals, all three from the unrounded hourly figure |
| `SystemMonitor.FrequencyFallback` | s.py:69 | a None or 0.0 frequency entry gives the 2.5 GHz fallback; any other reading gives MHz / 1000; the clock is 2.5 GHz exactly when the entry is falsy or reads 2500 MHz |
| `SystemMonitor.CpuWattsClosedForm` | s.py:69 | the CPU term is usage × MHz × 15 / 100000 with a truthy reading and usage × 0.375 W with the fallback |
| `SystemMonitor.CpuWattsBounds` | s.py:69 | for usage in [0, 100] and a non-negative clock, the CPU term lies between 0 and 15 W per GHz |
| `SystemMonitor.CpuWattsMonotone` | s.py:69 | raising the utilisation with the clock fixed never lowers the CPU term |
| `SystemMonitor.MemoryWattsBounds` | s.py:70 | the memory term is 0.05 W/GiB plus 0.005 W/GiB per percent, and at least 0.05 W/GiB, hence non-negative |
| `SystemMonitor.MemoryWattsMonotone` | s.py:70 | more GiB used or a higher percentage never lowers the memory term |
| `SystemMonitor.DiskWattsStep` | s.py:71 | the disk term is 2 W if and only if I/O > 0, and 0.5 W if and only if not |
| `SystemMonitor.DiskWattsOnGrid` | s.py:80 | rounding the disk term to one decimal leaves it unchanged |
| `SystemMonitor.EstimateTotals` | s.py:73-84 | IT total = cpu + memory + disk; facility − IT = IT/2 (PUE 1.5); facility ≥ IT if and only if IT ≥ 0; pue is 1.5 |
| `SystemMonitor.IdleHostDrawsOnlyDisk` | s.py:69-74 | with no CPU usage and no memory used, the IT total is the disk constant alone and the facility total is 0.75 W or 3 W |
| `SystemMonitor.EstimateNonNegative` | s.py:69-74 | for readings in their OS ranges, every term is non-negative and facility ≥ IT ≥ 0.5 W |
| `SystemMonitor.FacilityMonotoneInCpuUsage` | s.py:69-74 | a busier CPU, all else fixed, never lowers the facility total |
| `SystemMonitor.ReportedPowerError` | s.py:76-85 | each returned wattage is within 0.05 W of the exact one; the disk entry is exact |
| `SystemMonitor.DisplayedTotalIsNotDisplayedSum` | s.py:73-82 | the returned IT total can differ from the sum of the returned components (0.0 + 0.0 + 0.5 shown beside 0.6) |
| `SystemMonitor.RatesFromEnergy` | s.py:90-94 | each figure is the energy of its period (1 h, 24 h, 8760 h) in kWh × 400 g/kWh, in g, kg and t |
| `SystemMonitor.RatesUnits` | s.py:90-94 | hourly = W × 0.4; daily = hourly × 24 / 1000; annual = hourly × 8760 / 10^6 = daily × 365 / 1000 |
| `SystemMonitor.RatesLinear` | s.py:90-94 | the emission figures are additive and homogeneous in the power |
| `SystemMonitor.RatesMonotone` | s.py:90-94 | zero power gives zero emissions, and more power never gives fewer |
| `SystemMonitor.DashboardHourlyError` | s.py:105-107 | emissions from the rounded facility total differ from those of the exact total by at most 0.02 g/h |
| `SystemMonitor.WorkedExample` | s.py:69-94 | 50 % of 2 GHz, 4 GiB at 25 %, no I/O: 15.0 + 0.7 + 0.5 = 16.2 W IT, 24.3 W facility; 9.72 g/h, 0.23328 kg/day, 0.0851472 t/year exact, returned as 9.7, 0.23, 0.085 |
| `SystemMonitor.MemoryTieRoundsEven` | s.py:70-79 | with 1 GiB used at 60 % the exact memory term 0.35 W sits on a tie, and the returned entry is the even neighbour 0.4 W |
| `PyRound.Round` | s.py:78-83 | the result is on the 10^-n grid, within half a unit of the argument, and even in units at a tie |
| `PyRound.RoundIsUnique` | s.py:78-83 | the round-half-even property determines the result uniquely |
| `PyRound.RoundOnGrid` | s.py:78-83 | a value that already has at most n decimals is returned unchanged |
| `PyRound.RoundError` | s.py:92-94 | the rounding error is at most half a unit in the last kept decimal |

## Left out

- `get_all_metrics` (s.py:30-64) calls psutil, platform, socket and datetime. The model takes its result as an input record with only the entries the estimate reads: CPU usage and frequency, memory used and percent, and disk I/O.
- `display_dashboard` (s.py:98-127) is a polling loop that clears the screen, prints, sleeps and stops on `KeyboardInterrupt`. Only its data flow at s.py:105-107 is modelled, as `DashboardReading`.
- `_enable_unicode_console` (s.py:18-27) reconfigures stdout. It is console I/O.
- Floating point is not modelled. All arithmetic is exact over `real`. `PyRound.Round` rounds the exact value. It does not model the binary error of the operands or of the decimal result The tie-to-even clauses of `CalculatePower` and `CalculateEmissions` are where the model and the program can part: with 1 GiB used at 60 %, the exact memory term is 0.35 W and the model returns 0.4 W (`SystemMonitor.MemoryTieRoundsEven`), while in doubles `0.6 + 0.1` lies just below 0.7, half of it just below 0.35, and `round(..., 1)` gives 0.3. NaN and infinities are not modelled.
- The active disk value at s.py:71 is the Python int `2`, and `round(2, 1)` keeps it an int, so the dict holds `2` where the model holds the real 2.0; the values are equal, only the type differs.
- There is no rolling history, mean or anomaly threshold in this source, so none is modelled.
