/** Ordering and content of the command sequence `SystemClock.Enable` issues. */
module BringUpFacts {
  import opened Units
  import opened Rcc
  import SystemClock

  /** A write that must land before the system clock is switched. */
  predicate IsConfigWrite(c: Command) {
    c.SetFlashLatency? || c.SetPrescaler?
  }

  /** No command is issued twice: each command of the sequence is issued exactly once. */
  lemma EachCommandOnce()
    ensures Distinct(SystemClock.EnableSequence())
    ensures forall c :: Count(SystemClock.EnableSequence(), c) == if c in SystemClock.EnableSequence() then 1 else 0
  {
    var s := SystemClock.EnableSequence();
    forall c ensures Count(s, c) == if c in s then 1 else 0 {
      CountInDistinct(s, c);
    }
  }

  /** The core voltage is raised to its highest level before PLL1 is started. */
  lemma VoltageBeforePll()
    ensures Precedes(SystemClock.EnableSequence(),
                     SetVoltageScaling(Scale0),
                     EnablePll1(PllSource.Hsi, SystemClock.Pll1Factors()))
  {
    var s := SystemClock.EnableSequence();
    IndexOfAt(s, SetVoltageScaling(Scale0), 0);
    IndexOfAt(s, EnablePll1(PllSource.Hsi, SystemClock.Pll1Factors()), 2);
  }

  /** PLL1 is started before the flash wait states are set for the AHB frequency. */
  lemma PllBeforeFlashLatency()
    ensures Precedes(SystemClock.EnableSequence(),
                     EnablePll1(PllSource.Hsi, SystemClock.Pll1Factors()),
                     SetFlashLatency(SystemClock.Hz(SystemClock.Ahb)))
  {
    var s := SystemClock.EnableSequence();
    IndexOfAt(s, EnablePll1(PllSource.Hsi, SystemClock.Pll1Factors()), 2);
    IndexOfAt(s, SetFlashLatency(SystemClock.Hz(SystemClock.Ahb)), 3);
  }

  /** The flash latency and every prescaler are written before any clock switch. */
  lemma ConfigBeforeSwitch()
    ensures var s := SystemClock.EnableSequence();
      forall i, j :: 0 <= i < |s| && 0 <= j < |s| && IsConfigWrite(s[i]) && s[j].EnableSystemClock?
        ==> i < j
  {
  }

  /** Each of the five buses gets exactly one prescaler write. */
  lemma OnePrescalerPerBus(b: Bus)
    ensures var s := SystemClock.EnableSequence();
      exists i :: 0 <= i < |s| && s[i].SetPrescaler? && s[i].bus == b
    ensures var s := SystemClock.EnableSequence();
      forall i, j :: 0 <= i < |s| && 0 <= j < |s| && s[i].SetPrescaler? && s[j].SetPrescaler? &&
        s[i].bus == b && s[j].bus == b
        ==> i == j
  {
    var s := SystemClock.EnableSequence();
    var i := match b case Ahb => 4 case Apb1 => 5 case Apb2 => 6 case Apb3 => 7 case Apb4 => 8;
    assert s[i].SetPrescaler? && s[i].bus == b;
  }

  /**
   * The cached core frequency is updated immediately before the switch to
   * PLL1 P, which is the last command; the update does not follow the switch.
   */
  lemma CoreFrequencyUpdatedBeforeSwitch()
    ensures var s := SystemClock.EnableSequence();
      s[|s| - 1] == EnableSystemClock(SystemClockSource.Pll1P) &&
      s[|s| - 2] == UpdateCoreFrequency(SystemClock.Hz(SystemClock.Frequency))
  {
  }

  /** The prescaler written for each bus is the divisor of that bus's formula in the table. */
  lemma PrescalersMatchTable()
    ensures var s := SystemClock.EnableSequence();
      forall i :: 0 <= i < |s| && s[i].SetPrescaler? ==>
        SystemClock.Definition(SystemClock.BusDomain(s[i].bus)).Divide? &&
        SystemClock.Definition(SystemClock.BusDomain(s[i].bus)).divisor == Divisor(s[i].prescaler)
  {
  }

  /** The flash latency and the cached core frequency are both for 280 MHz. */
  lemma FrequencyArguments()
    ensures SetFlashLatency(280 * MHz) in SystemClock.EnableSequence()
    ensures UpdateCoreFrequency(280 * MHz) in SystemClock.EnableSequence()
  {
    SystemClock.DomainRate(SystemClock.Ahb);
    SystemClock.DomainRate(SystemClock.Frequency);
  }

  /** The PLL is fed from HSI although the sequence starts the external oscillator. */
  lemma PllSourceIsNotStartedOscillator()
    ensures EnableExternalClock in SystemClock.EnableSequence()
    ensures forall c :: c in SystemClock.EnableSequence() && c.EnablePll1? ==> c.source == PllSource.Hsi
  {
  }

  /** The flash latency is set before the system clock is switched to PLL1 P. */
  lemma FlashLatencyBeforeSwitch()
    ensures Precedes(SystemClock.EnableSequence(),
                     SetFlashLatency(SystemClock.Hz(SystemClock.Ahb)),
                     EnableSystemClock(SystemClockSource.Pll1P))
  {
    var s := SystemClock.EnableSequence();
    IndexOfAt(s, SetFlashLatency(SystemClock.Hz(SystemClock.Ahb)), 3);
    IndexOfAt(s, EnableSystemClock(SystemClockSource.Pll1P), 10);
  }

  /** The cached core frequency is updated before the system clock is switched. */
  lemma UpdateBeforeSwitch()
    ensures Precedes(SystemClock.EnableSequence(),
                     UpdateCoreFrequency(SystemClock.Hz(SystemClock.Frequency)),
                     EnableSystemClock(SystemClockSource.Pll1P))
  {
    var s := SystemClock.EnableSequence();
    var update := UpdateCoreFrequency(SystemClock.Hz(SystemClock.Frequency));
    assert s[9] == update;
    assert update !in s[..9];
    IndexOfAt(s, update, 9);
    IndexOfAt(s, EnableSystemClock(SystemClockSource.Pll1P), 10);
  }

  /**
   * Whatever the controller was given before, the commands `Enable` appends
   * keep their order in the whole trace, provided the earlier history holds
   * none of them (at reset it holds nothing).
   */
  lemma EnableOrderInTrace(prior: seq<Command>)
    requires forall c :: c in prior ==> c !in SystemClock.EnableSequence()
    ensures var t := prior + SystemClock.EnableSequence();
      Precedes(t, SetVoltageScaling(Scale0), EnablePll1(PllSource.Hsi, SystemClock.Pll1Factors())) &&
      Precedes(t, EnablePll1(PllSource.Hsi, SystemClock.Pll1Factors()), SetFlashLatency(SystemClock.Hz(SystemClock.Ahb))) &&
      Precedes(t, SetFlashLatency(SystemClock.Hz(SystemClock.Ahb)), EnableSystemClock(SystemClockSource.Pll1P)) &&
      Precedes(t, UpdateCoreFrequency(SystemClock.Hz(SystemClock.Frequency)), EnableSystemClock(SystemClockSource.Pll1P))
  {
    var s := SystemClock.EnableSequence();
    var voltage := SetVoltageScaling(Scale0);
    var pll := EnablePll1(PllSource.Hsi, SystemClock.Pll1Factors());
    var flash := SetFlashLatency(SystemClock.Hz(SystemClock.Ahb));
    var update := UpdateCoreFrequency(SystemClock.Hz(SystemClock.Frequency));
    var switch := EnableSystemClock(SystemClockSource.Pll1P);
    VoltageBeforePll();
    PllBeforeFlashLatency();
    FlashLatencyBeforeSwitch();
    UpdateBeforeSwitch();
    PrecedesAfterPrefix(prior, s, voltage, pll);
    PrecedesAfterPrefix(prior, s, pll, flash);
    PrecedesAfterPrefix(prior, s, flash, switch);
    PrecedesAfterPrefix(prior, s, update, switch);
  }
}
