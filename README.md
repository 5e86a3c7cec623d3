# Clock tree of the NUCLEO-H7A3ZI-Q board

A Dafny model of `Board::SystemClock` of the modm board support for the
NUCLEO-H7A3ZI-Q (STM32H7A3ZIQ): the table of `uint32_t` clock constants, the
PLL1 factor literal and the `enable()` bring-up sequence.

- `units.dfy` (`Units`): the `MHz` unit and the `uint32_t` modulus.
- `pll.dfy` (`Pll`): the PLL factor record (range tag, M, N, P, Q, R). It also
  holds the PLL arithmetic: input stage = source / M, VCO = input stage × N,
  output = VCO / divider. The source oscillator frequency is a parameter.
- `rcc.dfy` (`Rcc`): the clock-controller commands `enable()` issues. The
  controller is a `Device` object whose methods append each command to a ghost
  trace. `IndexOf`, `Precedes`, `Count` and `Distinct` state order and
  multiplicity over such a trace.
- `system_clock.dfy` (`SystemClock`):
  - `Definition` is the derivation table, with one formula per constant: a
    literal, an alias, a division or a multiplication of an upstream domain.
  - `Hz` evaluates a domain the way `uint32_t` arithmetic does: division
    truncates and products wrap modulo 2^32.
  - `DomainOf` binds each of the 45 peripheral instances to its domain. It is
    total because its `match` is exhaustive.
  - `PeripheralHz` is the frequency a peripheral's constant names.
  - `Pll1Factors` is the factor literal: M = 4, N = 35, P = Q = R = 2.
  - `Enable` issues the bring-up commands on a `Device`. `EnableSequence` is the
    list of commands it issues.
- `clock_tree_facts.dfy` (`ClockTreeFacts`): frequency bounds, timer doubling,
  peripheral rates and the PLL arithmetic.
- `bring_up_facts.dfy` (`BringUpFacts`): ordering and content of the bring-up
  sequence.

Where comments and code in `board.hpp` disagree, the model follows the code:

- Lines 32 and 116 speak of an 8 MHz HSE. Line 125 feeds PLL1 from HSI, and the
  arithmetic on line 119 assumes a 64 MHz source. The model keeps the source
  frequency as a parameter. `Pll1MatchesSysClk` shows that only a 64 MHz
  source makes the exact P and Q outputs, source × 35 / (4 × 2), equal to
  280 MHz. `Pll1From8MHz` shows
  that 8 MHz gives 35 MHz.
- Line 123 says the R output is 275 MHz. With VCO 560 MHz and R = 2 it is
  280 MHz (`Pll1From64MHz`).
- The range tag `MHz1_2` on line 118 is passed along unchecked.
  `RangeTagBand` shows that the 16 MHz input stage of a 64 MHz source lies
  outside the 1–2 MHz band, and that an 8 MHz source would lie inside it.
- The cached core frequency is updated on line 137, before the switch to PLL1 P
  on line 139. The model records that order
  (`CoreFrequencyUpdatedBeforeSwitch`).

A bring-up design that polls for readiness, rejects bad PLL factors, refuses
a second call and updates the cache only after the switch would differ from
this code. `enable()` does none of these things, and neither does the model.

`Hclk = SysClk / 1` (line 38) relies on the D1CPRE divider keeping its reset
value, since `enable()` never writes it. The table takes line 38 as written.

## Model

| member | source | states |
|---|---|---|
| SystemClock.Definition | src/modm/board/nucleo_h7a3ziq/board.hpp:36-51 | Each domain constant is defined from a domain nearer the root, so the table has no cycles; `SysClk` is the only literal |
| SystemClock.Hz | src/modm/board/nucleo_h7a3ziq/board.hpp:36-107 | Every domain constant is a `uint32_t` value (below 2^32), computed with truncating division and wrapping multiplication |
| SystemClock.DomainOf | src/modm/board/nucleo_h7a3ziq/board.hpp:53-107 | Every peripheral is bound to the SPI kernel clock (`Pll1Q`) or to a bus or timer clock, never directly to `SysClk`, `Hclk`, `Frequency` or `Ahb`; a peripheral is on a timer clock exactly when it is a timer |
| SystemClock.PeripheralHz | src/modm/board/nucleo_h7a3ziq/board.hpp:53-107 | A peripheral's clock is 140 MHz when its constant names an APB bus and 280 MHz otherwise |
| SystemClock.Pll1Factors | src/modm/board/nucleo_h7a3ziq/board.hpp:117-124 | The PLL1 factors carry the range tag `MHz1_2`, and for every source the P, Q and R outputs are the same frequency |
| Pll.InputStageHz | src/modm/board/nucleo_h7a3ziq/board.hpp:119 | The input stage is the source divided by M, truncated to whole Hz (the largest r with r × M ≤ source); it is exact when M divides the source |
| Pll.VcoHz | src/modm/board/nucleo_h7a3ziq/board.hpp:120 | The VCO is the truncated input stage times N; when M divides the source, VCO × M equals source × N exactly |
| Pll.OutputHz | src/modm/board/nucleo_h7a3ziq/board.hpp:121-123 | An output is the VCO divided by its divider, truncated to whole Hz; when M divides the source and the divider divides the VCO, output × divider × M equals source × N exactly |
| SystemClock.Enable | src/modm/board/nucleo_h7a3ziq/board.hpp:109-142 | Always returns true; appends exactly the eleven commands of `EnableSequence`, in source order, to the controller's trace |
| Rcc.Device.SetVoltageScaling | src/modm/board/nucleo_h7a3ziq/board.hpp:114 | The voltage-scaling command is recorded as the newest entry of the trace |
| Rcc.Device.EnableExternalClock | src/modm/board/nucleo_h7a3ziq/board.hpp:116 | The external-oscillator start is recorded as the newest entry of the trace |
| Rcc.Device.EnablePll1 | src/modm/board/nucleo_h7a3ziq/board.hpp:125 | The PLL1 start, with its source and factors, is recorded as the newest entry |
| Rcc.Device.SetFlashLatency | src/modm/board/nucleo_h7a3ziq/board.hpp:126 | The flash-latency write, for the given frequency, is recorded as the newest entry |
| Rcc.Device.SetAhbPrescaler | src/modm/board/nucleo_h7a3ziq/board.hpp:129 | The AHB prescaler write is recorded as the newest entry |
| Rcc.Device.SetApb1Prescaler | src/modm/board/nucleo_h7a3ziq/board.hpp:131 | The APB1 prescaler write is recorded as the newest entry |
| Rcc.Device.SetApb2Prescaler | src/modm/board/nucleo_h7a3ziq/board.hpp:132 | The APB2 prescaler write is recorded as the newest entry |
| Rcc.Device.SetApb3Prescaler | src/modm/board/nucleo_h7a3ziq/board.hpp:133 | The APB3 prescaler write is recorded as the newest entry |
| Rcc.Device.SetApb4Prescaler | src/modm/board/nucleo_h7a3ziq/board.hpp:134 | The APB4 prescaler write is recorded as the newest entry |
| Rcc.Device.UpdateCoreFrequency | src/modm/board/nucleo_h7a3ziq/board.hpp:137 | The core-frequency cache update, with its frequency, is recorded as the newest entry |
| Rcc.Device.EnableSystemClock | src/modm/board/nucleo_h7a3ziq/board.hpp:139 | The system-clock switch, with its source, is recorded as the newest entry |
| SystemClock.DomainRate | src/modm/board/nucleo_h7a3ziq/board.hpp:36-51 | Every domain runs at 280 MHz except APB1 to APB4, which run at 140 MHz; as `Hz` evaluates with `uint32_t` wrap-around, this also shows that no product in the table wraps |
| ClockTreeFacts.AhbPathUndivided | src/modm/board/nucleo_h7a3ziq/board.hpp:36-45 | `Hclk`, `Frequency`, `Ahb` and `Ahb1` to `Ahb4` never divide by more than 1 and all equal `SysClk`, 280 MHz |
| ClockTreeFacts.ApbHalved | src/modm/board/nucleo_h7a3ziq/board.hpp:46-51 | Each APB bus is defined as `Ahb / 2` and equals the 140 MHz maximum |
| ClockTreeFacts.TimerDoubling | src/modm/board/nucleo_h7a3ziq/board.hpp:88-89 | `Apb1Timer` is twice `Apb1`, `Apb2Timer` twice `Apb2`, and both equal `SysClk` |
| ClockTreeFacts.DomainWithinLimits | src/modm/board/nucleo_h7a3ziq/board.hpp:35-51 | No domain exceeds the 280 MHz maximum, which is below 2^32, and no APB bus exceeds the 140 MHz maximum |
| ClockTreeFacts.PeripheralWithinLimits | src/modm/board/nucleo_h7a3ziq/board.hpp:53-107 | No peripheral clock exceeds the 280 MHz maximum, and no peripheral on an APB bus exceeds the 140 MHz maximum |
| ClockTreeFacts.TimersRunAtSysClk | src/modm/board/nucleo_h7a3ziq/board.hpp:90-105 | Every timer is clocked by `Apb1Timer` or `Apb2Timer` and runs at `SysClk` |
| ClockTreeFacts.SpiKernelBindings | src/modm/board/nucleo_h7a3ziq/board.hpp:59-61 | SPI1 to SPI3 take the PLL1 Q clock |
| ClockTreeFacts.Apb4Bindings | src/modm/board/nucleo_h7a3ziq/board.hpp:64-85 | SPI6, LPUART1 and I2C4 take APB4 |
| ClockTreeFacts.Apb2UartBindings | src/modm/board/nucleo_h7a3ziq/board.hpp:66-75 | USART1, USART6, UART9 and USART10 take APB2 |
| ClockTreeFacts.AhbBindings | src/modm/board/nucleo_h7a3ziq/board.hpp:55-107 | ADC3 takes AHB4 and USB takes AHB1 |
| ClockTreeFacts.Pll1MatchesSysClk | src/modm/board/nucleo_h7a3ziq/board.hpp:117-125 | With M=4, N=35, P=Q=2: source × N = `SysClk` × M × P, and source × N = `Pll1Q` × M × Q, each exactly when the source is 64 MHz; for a source that M divides, the truncated P and Q outputs equal `SysClk` and `Pll1Q` exactly when the source is 64 MHz; with truncation, 64 MHz + 1 to + 3 Hz also match |
| ClockTreeFacts.Pll1From64MHz | src/modm/board/nucleo_h7a3ziq/board.hpp:119-123 | From 64 MHz: a 16 MHz input stage, a 560 MHz VCO, P and Q equal to `SysClk` and `Pll1Q`, and R at 280 MHz rather than 275 MHz |
| ClockTreeFacts.Pll1From8MHz | src/modm/board/nucleo_h7a3ziq/board.hpp:116-125 | From the 8 MHz external oscillator the same factors give a 2 MHz input stage and 35 MHz outputs, not `SysClk` |
| ClockTreeFacts.RangeTagBand | src/modm/board/nucleo_h7a3ziq/board.hpp:118-119 | The tag is `MHz1_2`; the 16 MHz input stage from 64 MHz lies outside that band, and the 2 MHz input stage from 8 MHz lies inside it |
| BringUpFacts.EachCommandOnce | src/modm/board/nucleo_h7a3ziq/board.hpp:114-139 | No command appears twice in the bring-up sequence; every command in it is issued exactly once |
| BringUpFacts.VoltageBeforePll | src/modm/board/nucleo_h7a3ziq/board.hpp:114-125 | Voltage scaling to Scale0 is issued before PLL1 is started |
| BringUpFacts.PllBeforeFlashLatency | src/modm/board/nucleo_h7a3ziq/board.hpp:125-126 | PLL1 is started before the flash latency is set for the AHB frequency |
| BringUpFacts.ConfigBeforeSwitch | src/modm/board/nucleo_h7a3ziq/board.hpp:126-139 | The flash-latency write and every prescaler write come before every system-clock switch |
| BringUpFacts.OnePrescalerPerBus | src/modm/board/nucleo_h7a3ziq/board.hpp:129-134 | Each of AHB and APB1 to APB4 receives exactly one prescaler write |
| BringUpFacts.CoreFrequencyUpdatedBeforeSwitch | src/modm/board/nucleo_h7a3ziq/board.hpp:136-139 | The switch to PLL1 P is the last command, and the command just before it is the core-frequency update |
| BringUpFacts.FlashLatencyBeforeSwitch | src/modm/board/nucleo_h7a3ziq/board.hpp:126-139 | The flash latency is set for the AHB frequency before the system clock is switched to PLL1 P |
| BringUpFacts.UpdateBeforeSwitch | src/modm/board/nucleo_h7a3ziq/board.hpp:137-139 | The core-frequency cache is updated before the switch, not after it |
| BringUpFacts.EnableOrderInTrace | src/modm/board/nucleo_h7a3ziq/board.hpp:109-142 | After `Enable` on a controller whose earlier history holds none of its commands, the whole trace has voltage before PLL1, PLL1 before flash latency, and both flash latency and cache update before the switch |
| BringUpFacts.PrescalersMatchTable | src/modm/board/nucleo_h7a3ziq/board.hpp:129-134 | The divisor written to each bus prescaler (AHB 1, APB1 to APB4 2) is the divisor that bus's constant uses in the table (lines 41-51) |
| BringUpFacts.FrequencyArguments | src/modm/board/nucleo_h7a3ziq/board.hpp:126-137 | The flash latency is set for 280 MHz, and the core-frequency cache is set to 280 MHz |
| BringUpFacts.PllSourceIsNotStartedOscillator | src/modm/board/nucleo_h7a3ziq/board.hpp:116-125 | The sequence starts the external oscillator, but every PLL1 start in it uses HSI |

## Left out

- The `Rcc` functions are library code and are not part of this model. Their register effects, their readiness waits and any checks they make are not modelled. Each call is one abstract trace entry.
- The model has no PLL validation, no oscillator or lock polling, no timeouts, no guard against a second `enable()` call and no "domain not ready" error, because `board.hpp` has none of them.
- VCO and output frequency limits, flash wait-state tables and voltage-scale limits are not modelled. They are vendor data and do not appear in these files. The input-range bands are read from the tag names.
- `Pll.PllInputRange`, `Rcc.PllSource` and `Rcc.SystemClockSource` list only the values named in these files, plus the obvious alternatives. They are not the library's full enumerations.
- `SystemClock.Hz`: states only the `uint32_t` bound in its own contract. The exact values are stated by `SystemClock.DomainRate`.
- `Pll.InputStageHz`: divides in whole Hz and truncates, where the hardware divides exactly. So in the model a source of 64 MHz + 1 to + 3 Hz also gives exactly 280 MHz on P and Q. `ClockTreeFacts.Pll1MatchesSysClk` states the exact, untruncated relation separately.
- Board plumbing is left out because it does not affect the clock tree. This covers the Arduino footprint include, the button and LED aliases, the `stlink` UART pins, the logger wrapper, `SysTickTimer::initialize` and `initialize()` (board.hpp lines 146-190).
- `src/xpcc/driver/lcd/font/all_caps_3x6.hpp` only declares an externally defined font array. The array's bytes are not part of this model.
