/**
 * The board's clock tree: every domain frequency is a `uint32_t` expression
 * over its upstream domain, every peripheral is bound to one domain, and
 * `Enable` is the fixed bring-up sequence that puts the tree into effect.
 */
module SystemClock {
  import opened Units
  import opened Pll
  import Rcc

  /** The named clock domains of the tree. */
  datatype Domain =
    | SysClk | Pll1Q | Hclk | Frequency
    | Ahb | Ahb1 | Ahb2 | Ahb3 | Ahb4
    | Apb1 | Apb2 | Apb3 | Apb4
    | Apb1Timer | Apb2Timer

  /** How a domain's frequency is written in terms of another domain. */
  datatype Formula =
    | Literal(hz: nat)
    | Same(upstream: Domain)
    | Divide(upstream: Domain, divisor: Divider)
    | Multiply(upstream: Domain, factor: nat)

  /** Distance from the root of the tree; each formula refers to a lower rank. */
  function Rank(d: Domain): nat {
    match d
    case SysClk => 0
    case Pll1Q | Hclk => 1
    case Frequency | Ahb => 2
    case Ahb1 | Ahb2 | Ahb3 | Ahb4 | Apb1 | Apb2 | Apb3 | Apb4 => 3
    case Apb1Timer | Apb2Timer => 4
  }

  /** The derivation table: one formula per constant of the clock structure. */
  function Definition(d: Domain): (f: Formula)
    ensures !f.Literal? ==> Rank(f.upstream) < Rank(d)
    ensures f.Literal? <==> d == SysClk
  {
    match d
    case SysClk => Literal(280 * MHz)
    case Pll1Q => Divide(SysClk, 1)
    case Hclk => Divide(SysClk, 1)
    case Frequency => Same(Hclk)
    case Ahb => Divide(Hclk, 1)
    case Ahb1 => Same(Ahb)
    case Ahb2 => Same(Ahb)
    case Ahb3 => Same(Ahb)
    case Ahb4 => Same(Ahb)
    case Apb1 => Divide(Ahb, 2)
    case Apb2 => Divide(Ahb, 2)
    case Apb3 => Divide(Ahb, 2)
    case Apb4 => Divide(Ahb, 2)
    case Apb1Timer => Multiply(Apb1, 2)
    case Apb2Timer => Multiply(Apb2, 2)
  }

  /**
   * The value of a domain constant, computed as `uint32_t` arithmetic does:
   * division truncates and a product wraps modulo 2^32.
   */
  function Hz(d: Domain): (r: nat)
    ensures r < Uint32Modulus
    decreases Rank(d)
  {
    match Definition(d)
    case Literal(v) => v % Uint32Modulus
    case Same(u) => Hz(u)
    case Divide(u, n) => Hz(u) / n
    case Multiply(u, n) => Hz(u) * n % Uint32Modulus
  }

  /**
   * Every domain runs at 280 MHz except the four APB buses, which run at
   * 140 MHz; in particular no `uint32_t` product in the table wraps.
   */
  lemma {:induction false} DomainRate(d: Domain)
    ensures Hz(d) == if IsApbBus(d) then 140 * MHz else 280 * MHz
    decreases Rank(d)
  {
    if !Definition(d).Literal? {
      DomainRate(Definition(d).upstream);
    }
  }

  predicate IsAhbPath(d: Domain) {
    d.Hclk? || d.Frequency? || d.Ahb? || d.Ahb1? || d.Ahb2? || d.Ahb3? || d.Ahb4?
  }

  predicate IsApbBus(d: Domain) {
    d.Apb1? || d.Apb2? || d.Apb3? || d.Apb4?
  }

  predicate IsTimerClock(d: Domain) {
    d.Apb1Timer? || d.Apb2Timer?
  }

  /** Domains a peripheral may be wired to: the SPI kernel clock and the bus clocks. */
  predicate IsPeripheralFeed(d: Domain) {
    d.Pll1Q? || d.Ahb1? || d.Ahb2? || d.Ahb3? || d.Ahb4? || IsApbBus(d) || IsTimerClock(d)
  }

  /** The peripheral instances whose clock the board names. */
  datatype Peripheral =
    | Adc1 | Adc2 | Adc3 | Dac1
    | Spi1 | Spi2 | Spi3 | Spi4 | Spi5 | Spi6
    | Usart1 | Usart2 | Usart3 | Uart4 | Uart5 | Usart6 | Uart7 | Uart8 | Uart9 | Usart10
    | LpUart1 | Can1 | Can2
    | I2c1 | I2c2 | I2c3 | I2c4 | I2c5
    | Timer1 | Timer2 | Timer3 | Timer4 | Timer5 | Timer6 | Timer7 | Timer8
    | Timer12 | Timer13 | Timer14 | Timer15 | Timer16 | Timer17 | Timer23 | Timer24
    | Usb

  predicate IsTimer(p: Peripheral) {
    || p.Timer1? || p.Timer2? || p.Timer3? || p.Timer4?
    || p.Timer5? || p.Timer6? || p.Timer7? || p.Timer8?
    || p.Timer12? || p.Timer13? || p.Timer14? || p.Timer15?
    || p.Timer16? || p.Timer17? || p.Timer23? || p.Timer24?
  }

  /** The domain each peripheral's clock constant is bound to. */
  function DomainOf(p: Peripheral): (d: Domain)
    ensures IsPeripheralFeed(d)
    ensures IsTimer(p) <==> IsTimerClock(d)
  {
    match p
    case Adc1 => Ahb1
    case Adc2 => Ahb1
    case Adc3 => Ahb4
    case Dac1 => Apb1
    case Spi1 => Pll1Q
    case Spi2 => Pll1Q
    case Spi3 => Pll1Q
    case Spi4 => Apb2
    case Spi5 => Apb2
    case Spi6 => Apb4
    case Usart1 => Apb2
    case Usart2 => Apb1
    case Usart3 => Apb1
    case Uart4 => Apb1
    case Uart5 => Apb1
    case Usart6 => Apb2
    case Uart7 => Apb1
    case Uart8 => Apb1
    case Uart9 => Apb2
    case Usart10 => Apb2
    case LpUart1 => Apb4
    case Can1 => Apb1
    case Can2 => Apb1
    case I2c1 => Apb1
    case I2c2 => Apb1
    case I2c3 => Apb1
    case I2c4 => Apb4
    case I2c5 => Apb1
    case Timer1 => Apb2Timer
    case Timer2 => Apb1Timer
    case Timer3 => Apb1Timer
    case Timer4 => Apb1Timer
    case Timer5 => Apb1Timer
    case Timer6 => Apb1Timer
    case Timer7 => Apb1Timer
    case Timer8 => Apb2Timer
    case Timer12 => Apb1Timer
    case Timer13 => Apb1Timer
    case Timer14 => Apb1Timer
    case Timer15 => Apb2Timer
    case Timer16 => Apb2Timer
    case Timer17 => Apb2Timer
    case Timer23 => Apb1Timer
    case Timer24 => Apb1Timer
    case Usb => Ahb1
  }

  /** A peripheral's clock constant: 140 MHz on an APB bus, 280 MHz on every other domain. */
  function PeripheralHz(p: Peripheral): (r: nat)
    ensures r == if IsApbBus(DomainOf(p)) then 140 * MHz else 280 * MHz
  {
    DomainRate(DomainOf(p));
    Hz(DomainOf(p))
  }

  /**
   * The PLL1 factor literal of the bring-up. Its range tag is the 1-2 MHz
   * band, and P, Q and R share one divider, so the three outputs run at one
   * frequency whatever the source.
   */
  function Pll1Factors(): (f: PllFactors)
    ensures f.range == MHz1_2
    ensures forall s: nat :: OutputHz(s, f, P) == OutputHz(s, f, Q) == OutputHz(s, f, R)
  {
    PllFactors(MHz1_2, 4, 35, 2, 2, 2)
  }

  /** The domain whose frequency a bus prescaler sets. */
  function BusDomain(b: Rcc.Bus): Domain {
    match b
    case Ahb => Ahb
    case Apb1 => Apb1
    case Apb2 => Apb2
    case Apb3 => Apb3
    case Apb4 => Apb4
  }

  /** The commands `Enable` issues, in the order it issues them. */
  function EnableSequence(): seq<Rcc.Command> {
    [ Rcc.SetVoltageScaling(Rcc.Scale0),
      Rcc.EnableExternalClock,
      Rcc.EnablePll1(Rcc.PllSource.Hsi, Pll1Factors()),
      Rcc.SetFlashLatency(Hz(Ahb)),
      Rcc.SetPrescaler(Rcc.Ahb, Rcc.Div1),
      Rcc.SetPrescaler(Rcc.Apb1, Rcc.Div2),
      Rcc.SetPrescaler(Rcc.Apb2, Rcc.Div2),
      Rcc.SetPrescaler(Rcc.Apb3, Rcc.Div2),
      Rcc.SetPrescaler(Rcc.Apb4, Rcc.Div2),
      Rcc.UpdateCoreFrequency(Hz(Frequency)),
      Rcc.EnableSystemClock(Rcc.SystemClockSource.Pll1P) ]
  }

  /**
   * Brings the clock tree up: raises the core voltage, starts the external
   * oscillator, starts PLL1, sets the flash wait states and the bus
   * prescalers, updates the cached core frequency and switches the system
   * clock to PLL1 P. There is no failure path.
   */
  method Enable(rcc: Rcc.Device) returns (ok: bool)
    modifies rcc
    ensures ok
    ensures rcc.trace == old(rcc.trace) + EnableSequence()
  {
    rcc.SetVoltageScaling(Rcc.Scale0);
    rcc.EnableExternalClock();
    rcc.EnablePll1(Rcc.PllSource.Hsi, Pll1Factors());
    rcc.SetFlashLatency(Hz(Ahb));
    rcc.SetAhbPrescaler(Rcc.Div1);
    rcc.SetApb1Prescaler(Rcc.Div2);
    rcc.SetApb2Prescaler(Rcc.Div2);
    rcc.SetApb3Prescaler(Rcc.Div2);
    rcc.SetApb4Prescaler(Rcc.Div2);
    rcc.UpdateCoreFrequency(Hz(Frequency));
    rcc.EnableSystemClock(Rcc.SystemClockSource.Pll1P);
    ok := true;
  }
}
