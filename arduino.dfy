/**
 * Firmware side: the per-channel signal conditioner (`Potentiometer`) and
 * the poll loop that turns changed outputs into slider frames.
 *
 * The pure functions (`NextAccumulator`, `NextStable`, `EdgeClamp`, `Step`,
 * `Outputs`) are the reference behaviour; the class `Potentiometer` and the
 * methods `EmitChanges` and `PollOnce` update state in place as the firmware
 * does and are proved against them.
 */
module Arduino {
  import opened Wrappers
  import opened GainLib

  /** Number of analog channels wired on the board (A0..A5). */
  const Channels := 6
  /** The pins the poll loop reports; every channel is listed. */
  const PinsToRead: seq<int> := [0, 1, 2, 3, 4, 5]
  const HysteresisThreshold := 4
  /** Largest reading of the 10-bit ADC. */
  const AdcMax := 1023
  /** Largest accumulator reachable from 16-bit inputs: far below u32::MAX, so the u32 arithmetic never wraps. */
  const AccumulatorMax := 2 * 0xFFFF

  /** The two fields of a Potentiometer. */
  datatype PotState = PotState(accumulator: nat, lastStableVal: u16)

  ghost predicate InRange(s: PotState) {
    s.accumulator <= AccumulatorMax
  }

  /** The states reachable while every input comes from the 10-bit ADC. */
  ghost predicate TenBit(s: PotState) {
    s.accumulator <= 2 * AdcMax && s.lastStableVal <= AdcMax
  }

  function Abs(x: int): nat {
    if x < 0 then -x else x
  }

  /**
   * The exponential moving average with weight 1/2. An accumulator of 0 is
   * the "not yet seeded" sentinel.
   */
  function NextAccumulator(acc: nat, raw: u16): (r: nat)
    ensures acc <= AccumulatorMax ==> r <= AccumulatorMax
    // seeding: the first smoothed value is the raw reading itself
    ensures acc == 0 ==> r / 2 == raw
    // the sentinel is reached only by seeding with a raw 0
    ensures r == 0 <==> acc == 0 && raw == 0
    // 10-bit inputs keep the accumulator within 2 * 1023
    ensures acc <= 2 * AdcMax && raw <= AdcMax ==> r <= 2 * AdcMax
    // under a constant input, 2*raw and 2*raw+1 are fixed points
    ensures acc == 2 * raw || acc == 2 * raw + 1 ==> r == acc
  {
    if acc == 0 then raw * 2 else acc - acc / 2 + raw
  }

  /** Rust's `as i16` on a value: the two's-complement reading of its low 16 bits. */
  function AsI16(x: int): (r: int)
    ensures -0x8000 <= r < 0x8000
    ensures -0x8000 <= x < 0x8000 ==> r == x
  {
    var m := x % 0x1_0000;
    if m >= 0x8000 then m - 0x1_0000 else m
  }

  /** `i16::abs` in a release build: wraps, so the absolute value of -32768 is -32768. */
  function WrappingAbs16(x: int): (r: int)
    requires -0x8000 <= x < 0x8000
    ensures x != -0x8000 ==> r == Abs(x) && r < 0x8000
    // the one value whose absolute value does not fit stays negative
    ensures x == -0x8000 ==> r == -0x8000
  {
    if x == -0x8000 then x else Abs(x)
  }

  /** The hysteresis `diff`: `(smoothed as i16 - stable as i16).abs()` in 16-bit arithmetic. */
  function Diff16(smoothed: u16, stable: u16): (d: int)
    // below 0x8000 the casts and the subtraction lose nothing
    ensures smoothed < 0x8000 && stable < 0x8000 ==> d == Abs(smoothed - stable)
  {
    WrappingAbs16(AsI16(AsI16(smoothed) - AsI16(stable)))
  }

  /** The hysteresis rule: the stable value follows the smoothed one only after a jump above the threshold. */
  function NextStable(stable: u16, smoothed: u16): (r: u16)
    ensures r == stable || r == smoothed
    ensures stable < 0x8000 && smoothed < 0x8000 ==>
              r == if Abs(smoothed - stable) > HysteresisThreshold then smoothed else stable
  {
    if Diff16(smoothed, stable) > HysteresisThreshold then smoothed else stable
  }

  /** Edge clamping of the reported value; the stored stable value is not touched. */
  function EdgeClamp(stable: u16): (out: u16)
    ensures out <= AdcMax
    ensures !(1 <= out <= 4) && !(1019 <= out <= 1022)
    ensures 5 <= stable <= 1018 ==> out == stable
  {
    if stable > 1018 then 1023 else if stable < 5 then 0 else stable
  }

  /** One call of `update`: the new fields. */
  function Step(s: PotState, raw: u16): (t: PotState)
    ensures InRange(s) ==> InRange(t)
    ensures TenBit(s) && raw <= AdcMax ==> TenBit(t)
    ensures t.lastStableVal == s.lastStableVal || t.lastStableVal == (t.accumulator / 2) % 0x1_0000
  {
    var acc := NextAccumulator(s.accumulator, raw);
    // `(acc >> 1) as u16`
    PotState(acc, NextStable(s.lastStableVal, (acc / 2) % 0x1_0000))
  }

  /** The value `update` returns from the fields it leaves behind. */
  function Output(s: PotState): u16 {
    EdgeClamp(s.lastStableVal)
  }

  /** The values returned by successive calls of `update` on `raws`. */
  function Outputs(s: PotState, raws: seq<u16>): (outs: seq<u16>)
    ensures |outs| == |raws|
    ensures forall k :: 0 <= k < |outs| ==> outs[k] <= AdcMax
    decreases |raws|
  {
    if raws == [] then []
    else
      var t := Step(s, raws[0]);
      [Output(t)] + Outputs(t, raws[1..])
  }

  /** The accumulator after `n` calls with the same raw input. */
  function Iterate(acc: nat, raw: u16, n: nat): nat
    decreases n
  {
    if n == 0 then acc else Iterate(NextAccumulator(acc, raw), raw, n - 1)
  }

  /** Under a constant input the accumulator reaches 2*raw or 2*raw+1, both fixed points. */
  lemma {:induction false} AccumulatorSettles(acc: nat, raw: u16)
    ensures exists n: nat :: Iterate(acc, raw, n) == 2 * raw || Iterate(acc, raw, n) == 2 * raw + 1
    decreases Abs(acc - 2 * raw)
  {
    if acc == 2 * raw || acc == 2 * raw + 1 {
      assert Iterate(acc, raw, 0) == acc;
    } else {
      var next := NextAccumulator(acc, raw);
      assert Abs(next - 2 * raw) < Abs(acc - 2 * raw);
      AccumulatorSettles(next, raw);
      var n: nat :| Iterate(next, raw, n) == 2 * raw || Iterate(next, raw, n) == 2 * raw + 1;
      assert Iterate(acc, raw, n + 1) == Iterate(next, raw, n);
    }
  }

  /**
   * Jitter suppression once converged: when the accumulator already lies in
   * [2*lo, 2*hi+1] (or is still 0), every raw reading stays in [lo, hi] and
   * the stable value is within the threshold of that whole band, the output
   * never moves (for example 500, 501, 500, 501 ... around a stable 500).
   */
  lemma {:induction false} JitterIsSuppressed(s: PotState, raws: seq<u16>, lo: int, hi: int)
    requires 0 <= lo <= hi <= AdcMax
    requires 2 * lo <= s.accumulator <= 2 * hi + 1 || s.accumulator == 0
    requires hi - HysteresisThreshold <= s.lastStableVal <= lo + HysteresisThreshold
    requires forall k :: 0 <= k < |raws| ==> lo <= raws[k] <= hi
    ensures forall k :: 0 <= k < |Outputs(s, raws)| ==> Outputs(s, raws)[k] == Output(s)
    decreases |raws|
  {
    if raws != [] {
      var t := Step(s, raws[0]);
      StepInBand(s, raws[0], lo, hi);
      var rest := Outputs(t, raws[1..]);
      JitterIsSuppressed(t, raws[1..], lo, hi);
      assert Outputs(s, raws) == [Output(t)] + rest;
    }
  }

  /** One update inside the band keeps the accumulator in the band and the stable value where it was. */
  lemma StepInBand(s: PotState, raw: u16, lo: int, hi: int)
    requires 0 <= lo <= raw <= hi <= AdcMax
    requires 2 * lo <= s.accumulator <= 2 * hi + 1 || s.accumulator == 0
    requires hi - HysteresisThreshold <= s.lastStableVal <= lo + HysteresisThreshold
    ensures 2 * lo <= Step(s, raw).accumulator <= 2 * hi + 1
    ensures Step(s, raw).lastStableVal == s.lastStableVal
  {
    var t := Step(s, raw);
    assert 2 * lo <= t.accumulator <= 2 * hi + 1;
    assert lo <= t.accumulator / 2 <= hi;
  }

  /**
   * Convergence: once the accumulator has settled on a constant 10-bit input
   * and the stable value is 10-bit, every output from then on is the same value.
   */
  lemma {:induction false} ConstantInputHoldsOutput(s: PotState, raw: u16, raws: seq<u16>)
    requires raw <= AdcMax && s.lastStableVal <= AdcMax
    requires s.accumulator == 2 * raw || s.accumulator == 2 * raw + 1
    requires forall k :: 0 <= k < |raws| ==> raws[k] == raw
    ensures forall k :: 0 <= k < |Outputs(s, raws)| ==> Outputs(s, raws)[k] == Outputs(s, raws)[0]
  {
    if raws != [] {
      var t := Step(s, raw);
      assert t.accumulator == s.accumulator && t.accumulator / 2 == raw;
      assert raw - HysteresisThreshold <= t.lastStableVal <= raw + HysteresisThreshold;
      JitterIsSuppressed(t, raws[1..], raw, raw);
      assert Outputs(s, raws) == [Output(t)] + Outputs(t, raws[1..]);
    }
  }

  /** The fields after `n` calls of `update` with the same raw input. */
  function Settle(s: PotState, raw: u16, n: nat): PotState
    decreases n
  {
    if n == 0 then s else Settle(Step(s, raw), raw, n - 1)
  }

  lemma {:induction false} SettleTracksAccumulator(s: PotState, raw: u16, n: nat)
    ensures Settle(s, raw, n).accumulator == Iterate(s.accumulator, raw, n)
    ensures TenBit(s) && raw <= AdcMax ==> TenBit(Settle(s, raw, n))
    decreases n
  {
    if n > 0 {
      SettleTracksAccumulator(Step(s, raw), raw, n - 1);
    }
  }

  lemma {:induction false} SettleSplit(s: PotState, raw: u16, a: nat, b: nat)
    ensures Settle(s, raw, a + b) == Settle(Settle(s, raw, a), raw, b)
    decreases a
  {
    if a > 0 {
      SettleSplit(Step(s, raw), raw, a - 1, b);
    }
  }

  /** One update after the accumulator has settled, both fields are a fixed point. */
  lemma SettledIsFixed(t: PotState, raw: u16)
    requires raw <= AdcMax && t.lastStableVal <= AdcMax
    requires t.accumulator == 2 * raw || t.accumulator == 2 * raw + 1
    ensures Step(Step(t, raw), raw) == Step(t, raw)
  {
    var u := Step(t, raw);
    assert u.accumulator == t.accumulator && (u.accumulator / 2) % 0x1_0000 == raw;
  }

  lemma {:induction false} FixedPointStays(t: PotState, raw: u16, k: nat)
    requires Step(t, raw) == t
    ensures Settle(t, raw, k) == t
    decreases k
  {
    if k > 0 {
      FixedPointStays(t, raw, k - 1);
    }
  }

  /**
   * Convergence from any 10-bit state: under a constant 10-bit input the
   * fields, and with them the output, stop changing after finitely many
   * updates.
   */
  lemma EventuallyConstant(s: PotState, raw: u16)
    requires TenBit(s) && raw <= AdcMax
    ensures exists n: nat :: forall m: nat :: n <= m ==> Settle(s, raw, m) == Settle(s, raw, n)
  {
    AccumulatorSettles(s.accumulator, raw);
    var n0: nat :| Iterate(s.accumulator, raw, n0) == 2 * raw || Iterate(s.accumulator, raw, n0) == 2 * raw + 1;
    SettleTracksAccumulator(s, raw, n0);
    var t := Settle(s, raw, n0);
    SettledIsFixed(t, raw);
    var n := n0 + 1;
    var u := Step(t, raw);
    SettleSplit(s, raw, n0, 1);
    assert Settle(t, raw, 1) == u;
    assert Settle(s, raw, n) == u && Step(u, raw) == u;
    forall m: nat | n <= m
      ensures Settle(s, raw, m) == u
    {
      SettleSplit(s, raw, n, m - n);
      FixedPointStays(u, raw, m - n);
    }
  }

  /** Under a constant input, output `k` is the output of the fields after `k + 1` updates. */
  lemma {:induction false} OutputsFollowSettle(s: PotState, raw: u16, raws: seq<u16>)
    requires forall k :: 0 <= k < |raws| ==> raws[k] == raw
    ensures forall k :: 0 <= k < |raws| ==> Outputs(s, raws)[k] == Output(Settle(s, raw, k + 1))
    decreases |raws|
  {
    if raws != [] {
      var t := Step(s, raw);
      OutputsFollowSettle(t, raw, raws[1..]);
      assert Outputs(s, raws) == [Output(t)] + Outputs(t, raws[1..]);
      forall k | 0 <= k < |raws|
        ensures Outputs(s, raws)[k] == Output(Settle(s, raw, k + 1))
      {
        if k > 0 {
          assert Outputs(s, raws)[k] == Outputs(t, raws[1..])[k - 1];
        }
      }
    }
  }

  /**
   * A slider resting below 5 from a fresh start (or any state no higher)
   * only ever reports 0, which equals the initial baseline: no event.
   */
  lemma {:induction false} RestingBelowFiveIsSilent(s: PotState, raws: seq<u16>)
    requires s.accumulator <= 8 && s.lastStableVal <= 4
    requires forall k :: 0 <= k < |raws| ==> raws[k] < 5
    ensures forall k :: 0 <= k < |Outputs(s, raws)| ==> Outputs(s, raws)[k] == 0
    decreases |raws|
  {
    if raws != [] {
      var t := Step(s, raws[0]);
      StepBelowFive(s, raws[0]);
      var rest := Outputs(t, raws[1..]);
      RestingBelowFiveIsSilent(t, raws[1..]);
      assert Outputs(s, raws) == [Output(t)] + rest;
    }
  }

  /** One update below 5 from a state no higher stays no higher and reports 0. */
  lemma StepBelowFive(s: PotState, raw: u16)
    requires s.accumulator <= 8 && s.lastStableVal <= 4 && raw < 5
    ensures Step(s, raw).accumulator <= 8 && Step(s, raw).lastStableVal <= 4
    ensures Output(Step(s, raw)) == 0
  {
    var t := Step(s, raw);
    assert t.accumulator <= 8 && (t.accumulator / 2) % 0x1_0000 <= 4;
  }

  /** The conditioner of one channel; `update` changes both fields in place. */
  class Potentiometer {
    var accumulator: nat
    var lastStableVal: u16

    function State(): PotState
      reads this
    {
      PotState(accumulator, lastStableVal)
    }

    ghost predicate Valid()
      reads this
    {
      InRange(State())
    }

    constructor ()
      ensures Valid() && State() == PotState(0, 0)
    {
      accumulator := 0;
      lastStableVal := 0;
    }

    method Update(rawInput: u16) returns (out: u16)
      requires Valid()
      modifies this
      ensures Valid() && State() == Step(old(State()), rawInput)
      ensures out == Output(State())
    {
      // EMA filter
      if accumulator == 0 {
        accumulator := rawInput * 2;
      } else {
        accumulator := accumulator - accumulator / 2 + rawInput;
      }
      // `as u16` keeps the low 16 bits; the accumulator bound makes it lossless
      var smoothedRaw: u16 := (accumulator / 2) % 0x1_0000;
      // hysteresis
      var diff := WrappingAbs16(AsI16(AsI16(smoothedRaw) - AsI16(lastStableVal)));
      if diff > HysteresisThreshold {
        lastStableVal := smoothedRaw;
      }
      // edge clamping
      if lastStableVal > 1018 {
        out := 1023;
      } else if lastStableVal < 5 {
        out := 0;
      } else {
        out := lastStableVal;
      }
    }
  }

  /**
   * The slider events the poll loop builds from the first `n` channels: one
   * for every listed pin whose output differs from its baseline.
   */
  function Changed(last: seq<u16>, current: seq<u16>, n: nat): (events: seq<Slider>)
    requires n <= |current| == |last| <= 0x100
    // at most one event per channel
    ensures |events| <= n
  {
    if n == 0 then []
    else
      var i := n - 1;
      Changed(last, current, i) + (if i in PinsToRead && current[i] != last[i] then [Slider(i, current[i])] else [])
  }

  /**
   * An event is built exactly for each listed channel whose output moved,
   * carrying that channel's index as id and the new output as value, in
   * channel order; an idle channel produces nothing.
   */
  lemma {:induction false} ChangedExactly(last: seq<u16>, current: seq<u16>, n: nat)
    requires n <= |current| == |last| <= 0x100
    ensures forall e :: e in Changed(last, current, n) <==>
              e.id < n && e.id in PinsToRead && current[e.id] != last[e.id] && e.value == current[e.id]
    ensures forall a, b :: 0 <= a < b < |Changed(last, current, n)| ==>
              Changed(last, current, n)[a].id < Changed(last, current, n)[b].id
    ensures forall a :: 0 <= a < |Changed(last, current, n)| ==> Changed(last, current, n)[a].id < n
  {
    if n > 0 {
      ChangedExactly(last, current, n - 1);
    }
  }

  /**
   * Once the baselines equal the outputs (which every poll leaves behind,
   * whether or not the encoding succeeded), an unchanged output produces no
   * event: a change whose encoding failed is not sent again.
   */
  lemma {:induction false} SettledBaselineIsSilent(current: seq<u16>, n: nat)
    requires n <= |current| <= 0x100
    ensures Changed(current, current, n) == []
  {
    if n > 0 {
      SettledBaselineIsSilent(current, n - 1);
    }
  }

  /** The bytes written for `events`; an event whose encoding fails writes nothing. */
  function Transmitted(events: seq<Slider>, encode: Slider -> Option<seq<byte>>): seq<byte>
  {
    if events == [] then []
    else
      var e := events[|events| - 1];
      Transmitted(events[..|events| - 1], encode) + (if encode(e).Some? then encode(e).value else [])
  }

  /** The bytes the loop has written after visiting the first `n` channels. */
  function Sent(last: seq<u16>, current: seq<u16>, n: nat, encode: Slider -> Option<seq<byte>>): seq<byte>
    requires n <= |current| == |last| <= 0x100
  {
    if n == 0 then []
    else
      var i := n - 1;
      var e := Slider(i, current[i]);
      Sent(last, current, i, encode)
        + (if i in PinsToRead && current[i] != last[i] && encode(e).Some? then encode(e).value else [])
  }

  /** What the loop writes is the encodings of the changed events, in order. */
  lemma {:induction false} SentIsTransmittedChanges(last: seq<u16>, current: seq<u16>, n: nat,
                                                    encode: Slider -> Option<seq<byte>>)
    requires n <= |current| == |last| <= 0x100
    ensures Sent(last, current, n, encode) == Transmitted(Changed(last, current, n), encode)
  {
    if n > 0 {
      var i := n - 1;
      SentIsTransmittedChanges(last, current, i, encode);
      if i in PinsToRead && current[i] != last[i] {
        TransmittedSnoc(Changed(last, current, i), Slider(i, current[i]), encode);
      } else {
        assert Changed(last, current, n) == Changed(last, current, i);
      }
    }
  }

  lemma TransmittedSnoc(events: seq<Slider>, e: Slider, encode: Slider -> Option<seq<byte>>)
    ensures Transmitted(events + [e], encode)
              == Transmitted(events, encode) + (if encode(e).Some? then encode(e).value else [])
  {
    assert (events + [e])[..|events|] == events;
  }

  /**
   * The change-detection half of the poll loop. `encode` stands for the
   * postcard/COBS encoder. The baseline advances before encoding, so a
   * failed encode loses that change for good.
   */
  method EmitChanges(current: seq<u16>, lastOutputValues: array<u16>, encode: Slider -> Option<seq<byte>>)
    returns (wire: seq<byte>)
    requires |current| == lastOutputValues.Length == Channels
    modifies lastOutputValues
    ensures lastOutputValues[..] == current
    ensures wire == Transmitted(Changed(old(lastOutputValues[..]), current, |current|), encode)
  {
    ghost var last0 := lastOutputValues[..];
    wire := [];
    var i := 0;
    while i < |current|
      invariant 0 <= i <= |current|
      invariant forall j :: 0 <= j < i ==> lastOutputValues[j] == current[j]
      invariant forall j :: i <= j < Channels ==> lastOutputValues[j] == last0[j]
      invariant wire == Sent(last0, current, i, encode)
    {
      if i in PinsToRead {
        var newVal := current[i];
        if newVal != lastOutputValues[i] {
          lastOutputValues[i] := newVal;
          var slider := Slider(i, newVal);
          var encoded := encode(slider);
          if encoded.Some? {
            wire := wire + encoded.value;
          }
        }
      }
      i := i + 1;
    }
    SentIsTransmittedChanges(last0, current, |current|, encode);
  }

  /**
   * One pass of the firmware's main loop after the ADC reads: every channel
   * goes through its conditioner, then the changed outputs are sent.
   */
  method PollOnce(pots: array<Potentiometer>, lastOutputValues: array<u16>, rawReads: seq<u16>,
                  encode: Slider -> Option<seq<byte>>)
    returns (current: seq<u16>, wire: seq<byte>)
    requires pots.Length == lastOutputValues.Length == |rawReads| == Channels
    requires forall i :: 0 <= i < Channels ==> pots[i].Valid()
    requires forall i, j :: 0 <= i < j < Channels ==> pots[i] != pots[j]
    modifies pots[..], lastOutputValues
    ensures forall i :: 0 <= i < Channels ==>
              pots[i].Valid() && pots[i].State() == Step(old(pots[i].State()), rawReads[i])
    ensures |current| == Channels
    ensures forall i :: 0 <= i < Channels ==> current[i] == Output(pots[i].State())
    ensures lastOutputValues[..] == current
    ensures wire == Transmitted(Changed(old(lastOutputValues[..]), current, |current|), encode)
  {
    current := [];
    var i := 0;
    while i < Channels
      invariant 0 <= i <= Channels && |current| == i
      invariant forall j :: 0 <= j < i ==>
                  pots[j].Valid() && pots[j].State() == Step(old(pots[j].State()), rawReads[j])
      invariant forall j :: i <= j < Channels ==> pots[j].Valid() && pots[j].State() == old(pots[j].State())
      invariant forall j :: 0 <= j < i ==> current[j] == Output(pots[j].State())
      invariant lastOutputValues[..] == old(lastOutputValues[..])
    {
      var out := pots[i].Update(rawReads[i]);
      current := current + [out];
      i := i + 1;
    }
    wire := EmitChanges(current, lastOutputValues, encode);
  }
}
