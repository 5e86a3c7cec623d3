/** What the derivation table, the peripheral binding and the PLL factors imply. */
module ClockTreeFacts {
  import opened Units
  import opened Pll
  import opened SystemClock

  /** The stated maximum of the system clock. */
  const SysClkLimit: nat := 280 * MHz

  /** The stated maximum of the APB clocks. */
  const ApbLimit: nat := 140 * MHz

  /** The AHB path never divides: every AHB-side domain equals the system clock. */
  lemma AhbPathUndivided(d: Domain)
    requires IsAhbPath(d)
    ensures Definition(d).Divide? ==> Definition(d).divisor == 1
    ensures Hz(d) == Hz(SysClk) == 280 * MHz
  {
    DomainRate(d);
    DomainRate(SysClk);
  }

  /** Each APB bus is the AHB clock divided by two, at the 140 MHz maximum. */
  lemma ApbHalved(d: Domain)
    requires IsApbBus(d)
    ensures Definition(d) == Divide(Ahb, 2)
    ensures Hz(d) == Hz(Ahb) / 2 == ApbLimit
  {
    DomainRate(d);
    DomainRate(Ahb);
  }

  /** Timer doubling: each APB timer clock is twice its bus, which is the system clock. */
  lemma TimerDoubling()
    ensures Hz(Apb1Timer) == 2 * Hz(Apb1) == Hz(SysClk)
    ensures Hz(Apb2Timer) == 2 * Hz(Apb2) == Hz(SysClk)
  {
    DomainRate(Apb1Timer);
    DomainRate(Apb1);
    DomainRate(Apb2Timer);
    DomainRate(Apb2);
    DomainRate(SysClk);
  }

  /** No domain exceeds the system-clock maximum, and no APB bus the APB maximum. */
  lemma DomainWithinLimits(d: Domain)
    ensures Hz(d) <= SysClkLimit < Uint32Modulus
    ensures IsApbBus(d) ==> Hz(d) <= ApbLimit
  {
    DomainRate(d);
  }

  /** No peripheral clock exceeds the system-clock maximum, nor one on an APB bus the APB maximum. */
  lemma PeripheralWithinLimits(p: Peripheral)
    ensures PeripheralHz(p) <= SysClkLimit
    ensures IsApbBus(DomainOf(p)) ==> PeripheralHz(p) <= ApbLimit
  {
  }

  /** Every timer peripheral is clocked by a timer clock and runs at the system clock. */
  lemma TimersRunAtSysClk(p: Peripheral)
    requires IsTimer(p)
    ensures DomainOf(p) == Apb1Timer || DomainOf(p) == Apb2Timer
    ensures PeripheralHz(p) == Hz(SysClk)
  {
    DomainRate(DomainOf(p));
    DomainRate(SysClk);
  }

  /** SPI1 to SPI3 are clocked from the PLL1 Q output. */
  lemma SpiKernelBindings()
    ensures DomainOf(Spi1) == Pll1Q && DomainOf(Spi2) == Pll1Q && DomainOf(Spi3) == Pll1Q
  {
  }

  /** SPI6, LPUART1 and I2C4 sit on APB4. */
  lemma Apb4Bindings()
    ensures DomainOf(Spi6) == Apb4 && DomainOf(LpUart1) == Apb4 && DomainOf(I2c4) == Apb4
  {
  }

  /** USART1, USART6, UART9 and USART10 sit on APB2. */
  lemma Apb2UartBindings()
    ensures DomainOf(Usart1) == Apb2 && DomainOf(Usart6) == Apb2
    ensures DomainOf(Uart9) == Apb2 && DomainOf(Usart10) == Apb2
  {
  }

  /** ADC3 is on AHB4 and USB on AHB1. */
  lemma AhbBindings()
    ensures DomainOf(Adc3) == Ahb4 && DomainOf(Usb) == Ahb1
  {
  }

  /**
   * With M = 4, N = 35 and P = Q = 2, the exact output frequency
   * source × N / (M × P) equals the system clock, and source × N / (M × Q)
   * the SPI kernel clock, only for a 64 MHz source. The truncating
   * arithmetic of `OutputHz` agrees for every source that M divides; only
   * its truncation lets 64 MHz + 1 to + 3 Hz through as well.
   */
  lemma {:induction false} Pll1MatchesSysClk(sourceHz: nat)
    ensures sourceHz * Pll1Factors().pllN == Hz(SysClk) * Pll1Factors().pllM * Pll1Factors().pllP
        <==> sourceHz == 64 * MHz
    ensures sourceHz * Pll1Factors().pllN == Hz(Pll1Q) * Pll1Factors().pllM * Pll1Factors().pllQ
        <==> sourceHz == 64 * MHz
    ensures sourceHz % Pll1Factors().pllM == 0 ==>
      (OutputHz(sourceHz, Pll1Factors(), P) == Hz(SysClk) <==> sourceHz == 64 * MHz)
    ensures sourceHz % Pll1Factors().pllM == 0 ==>
      (OutputHz(sourceHz, Pll1Factors(), Q) == Hz(Pll1Q) <==> sourceHz == 64 * MHz)
    ensures OutputHz(sourceHz, Pll1Factors(), P) == Hz(SysClk)
        <==> 64 * MHz <= sourceHz < 64 * MHz + 4
    ensures OutputHz(sourceHz, Pll1Factors(), Q) == Hz(Pll1Q)
        <==> 64 * MHz <= sourceHz < 64 * MHz + 4
  {
    DomainRate(SysClk);
    DomainRate(Pll1Q);
    var k := sourceHz / 4;
    assert InputStageHz(sourceHz, Pll1Factors()) == k;
    assert OutputHz(sourceHz, Pll1Factors(), P) == k * 35 / 2;
    assert OutputHz(sourceHz, Pll1Factors(), Q) == k * 35 / 2;
    if k < 16 * MHz {
      assert k * 35 / 2 < 280 * MHz;
    } else if k > 16 * MHz {
      assert k * 35 / 2 > 280 * MHz;
    }
  }

  /** The bring-up's PLL from a 64 MHz source: 16 MHz input, 560 MHz VCO, 280 MHz on P, Q and R. */
  lemma Pll1From64MHz()
    ensures InputStageHz(64 * MHz, Pll1Factors()) == 16 * MHz
    ensures VcoHz(64 * MHz, Pll1Factors()) == 560 * MHz
    ensures OutputHz(64 * MHz, Pll1Factors(), P) == Hz(SysClk)
    ensures OutputHz(64 * MHz, Pll1Factors(), Q) == Hz(Pll1Q)
    ensures OutputHz(64 * MHz, Pll1Factors(), R) == 280 * MHz != 275 * MHz
  {
    Pll1MatchesSysClk(64 * MHz);
  }

  /** From an 8 MHz source the same factors give 35 MHz outputs, not the system clock. */
  lemma Pll1From8MHz()
    ensures InputStageHz(8 * MHz, Pll1Factors()) == 2 * MHz
    ensures OutputHz(8 * MHz, Pll1Factors(), P) == 35 * MHz != Hz(SysClk)
    ensures OutputHz(8 * MHz, Pll1Factors(), Q) == 35 * MHz != Hz(Pll1Q)
  {
    Pll1MatchesSysClk(8 * MHz);
  }

  /**
   * The range tag of the factor literal names the 1-2 MHz band; a 64 MHz
   * source puts the input stage at 16 MHz, outside it, while an 8 MHz source
   * would lie inside it.
   */
  lemma RangeTagBand()
    ensures Pll1Factors().range == MHz1_2
    ensures !InBand(Pll1Factors().range, InputStageHz(64 * MHz, Pll1Factors()))
    ensures InBand(Pll1Factors().range, InputStageHz(8 * MHz, Pll1Factors()))
  {
  }
}
