/**
 * The reset-and-clock-control commands the board's bring-up issues. Their
 * register-level effect is not part of this model: the controller is a device
 * that records, in order, every command it has been given.
 */
module Rcc {
  import opened Pll

  datatype VoltageScaling = Scale0 | Scale1 | Scale2 | Scale3

  /** Oscillators that can feed PLL1. */
  datatype PllSource = Hsi | Hse

  /** Sources the system clock can be switched to. */
  datatype SystemClockSource = Hsi | Hse | Pll1P

  /** The buses that have a prescaler. */
  datatype Bus = Ahb | Apb1 | Apb2 | Apb3 | Apb4

  datatype Prescaler = Div1 | Div2 | Div4 | Div8 | Div16

  function Divisor(p: Prescaler): nat {
    match p
    case Div1 => 1
    case Div2 => 2
    case Div4 => 4
    case Div8 => 8
    case Div16 => 16
  }

  datatype Command =
    | SetVoltageScaling(scale: VoltageScaling)
    | EnableExternalClock
    | EnablePll1(source: PllSource, factors: PllFactors)
    | SetFlashLatency(forHz: nat)
    | SetPrescaler(bus: Bus, prescaler: Prescaler)
    | UpdateCoreFrequency(hz: nat)
    | EnableSystemClock(clockSource: SystemClockSource)

  /** Position of the first occurrence of `c` in `t`. */
  function IndexOf(t: seq<Command>, c: Command): (i: nat)
    requires c in t
    ensures i < |t| && t[i] == c
    ensures c !in t[..i]
  {
    if t[0] == c then 0
    else
      assert t == [t[0]] + t[1..];
      var i := 1 + IndexOf(t[1..], c);
      assert t[..i] == [t[0]] + t[1..][..i - 1];
      i
  }

  /** The first occurrence of `c` is at `k` when `t[k]` is `c` and nothing before it is. */
  lemma IndexOfAt(t: seq<Command>, c: Command, k: nat)
    requires k < |t| && t[k] == c && c !in t[..k]
    ensures IndexOf(t, c) == k
  {
  }

  /** Commands already in the trace shift the position of a later first occurrence. */
  lemma IndexOfAfterPrefix(pre: seq<Command>, t: seq<Command>, c: Command)
    requires c !in pre && c in t
    ensures c in pre + t
    ensures IndexOf(pre + t, c) == |pre| + IndexOf(t, c)
  {
    var k := IndexOf(t, c);
    assert (pre + t)[|pre| + k] == c;
    assert (pre + t)[..|pre| + k] == pre + t[..k];
    IndexOfAt(pre + t, c, |pre| + k);
  }

  /** `a` is issued, `b` is issued, and the first `a` comes before the first `b`. */
  predicate Precedes(t: seq<Command>, a: Command, b: Command) {
    a in t && b in t && IndexOf(t, a) < IndexOf(t, b)
  }

  /** An order between two commands survives any earlier history that holds neither. */
  lemma PrecedesAfterPrefix(pre: seq<Command>, t: seq<Command>, a: Command, b: Command)
    requires a !in pre && b !in pre && Precedes(t, a, b)
    ensures Precedes(pre + t, a, b)
  {
    IndexOfAfterPrefix(pre, t, a);
    IndexOfAfterPrefix(pre, t, b);
  }

  /** How many times `c` is issued in `t`. */
  function Count(t: seq<Command>, c: Command): nat {
    if t == [] then 0 else (if t[0] == c then 1 else 0) + Count(t[1..], c)
  }

  /** No command is issued twice. */
  predicate Distinct(t: seq<Command>) {
    forall i, j :: 0 <= i < j < |t| ==> t[i] != t[j]
  }

  /** In a trace without repetitions every command is issued once or not at all. */
  lemma {:induction false} CountInDistinct(t: seq<Command>, c: Command)
    requires Distinct(t)
    ensures Count(t, c) == if c in t then 1 else 0
  {
    if t != [] {
      assert Distinct(t[1..]) by {
        forall i, j | 0 <= i < j < |t[1..]| ensures t[1..][i] != t[1..][j] {
          assert t[1..][i] == t[i + 1] && t[1..][j] == t[j + 1];
        }
      }
      CountInDistinct(t[1..], c);
      assert t == [t[0]] + t[1..];
      if t[0] == c {
        assert forall k :: 0 <= k < |t[1..]| ==> t[1..][k] == t[k + 1] != t[0];
        assert c !in t[1..];
      }
    }
  }

  /** The clock controller, seen as the log of the commands sent to it. */
  class Device {
    ghost var trace: seq<Command>

    constructor ()
      ensures trace == []
    {
      trace := [];
    }

    method SetVoltageScaling(scale: VoltageScaling)
      modifies this
      ensures trace == old(trace) + [Command.SetVoltageScaling(scale)]
    {
      trace := trace + [Command.SetVoltageScaling(scale)];
    }

    method EnableExternalClock()
      modifies this
      ensures trace == old(trace) + [Command.EnableExternalClock]
    {
      trace := trace + [Command.EnableExternalClock];
    }

    method EnablePll1(source: PllSource, factors: PllFactors)
      modifies this
      ensures trace == old(trace) + [Command.EnablePll1(source, factors)]
    {
      trace := trace + [Command.EnablePll1(source, factors)];
    }

    method SetFlashLatency(forHz: nat)
      modifies this
      ensures trace == old(trace) + [Command.SetFlashLatency(forHz)]
    {
      trace := trace + [Command.SetFlashLatency(forHz)];
    }

    method SetAhbPrescaler(p: Prescaler)
      modifies this
      ensures trace == old(trace) + [SetPrescaler(Ahb, p)]
    {
      trace := trace + [SetPrescaler(Ahb, p)];
    }

    method SetApb1Prescaler(p: Prescaler)
      modifies this
      ensures trace == old(trace) + [SetPrescaler(Apb1, p)]
    {
      trace := trace + [SetPrescaler(Apb1, p)];
    }

    method SetApb2Prescaler(p: Prescaler)
      modifies this
      ensures trace == old(trace) + [SetPrescaler(Apb2, p)]
    {
      trace := trace + [SetPrescaler(Apb2, p)];
    }

    method SetApb3Prescaler(p: Prescaler)
      modifies this
      ensures trace == old(trace) + [SetPrescaler(Apb3, p)]
    {
      trace := trace + [SetPrescaler(Apb3, p)];
    }

    method SetApb4Prescaler(p: Prescaler)
      modifies this
      ensures trace == old(trace) + [SetPrescaler(Apb4, p)]
    {
      trace := trace + [SetPrescaler(Apb4, p)];
    }

    method UpdateCoreFrequency(hz: nat)
      modifies this
      ensures trace == old(trace) + [Command.UpdateCoreFrequency(hz)]
    {
      trace := trace + [Command.UpdateCoreFrequency(hz)];
    }

    method EnableSystemClock(src: SystemClockSource)
      modifies this
      ensures trace == old(trace) + [Command.EnableSystemClock(src)]
    {
      trace := trace + [Command.EnableSystemClock(src)];
    }
  }
}
