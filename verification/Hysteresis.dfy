/** Heating status, and the two automata that decide when the heater counts as ready. */
module Hysteresis {
  import opened Options

  datatype HeatingStatus = Disabled | Preheat | Ready | Overheat

  /** Class of a temperature (millidegrees) relative to the target and the window around it. */
  function MakeStatus(temperature: int, target: int, window: int): (r: HeatingStatus)
    ensures r != Disabled
    ensures r == Preheat <==> temperature < target - window
    ensures r == Overheat <==> target - window <= temperature && target + window < temperature
    ensures window >= 0 ==> (r == Ready <==> target - window <= temperature <= target + window)
    ensures window >= 0 ==> (r == Overheat <==> target + window < temperature)
  {
    if temperature + window < target then Preheat
    else if temperature > target + window then Overheat
    else Ready
  }

  /** The three classes come in temperature order. */
  lemma StatusIsMonotone(cold: int, hot: int, target: int, window: int)
    requires cold <= hot && window >= 0
    ensures MakeStatus(cold, target, window) == Overheat ==> MakeStatus(hot, target, window) == Overheat
    ensures MakeStatus(hot, target, window) == Preheat ==> MakeStatus(cold, target, window) == Preheat
  {
  }

  /** What a registered callback remembers between readings. */
  datatype Memory =
    | FixedRate(required: nat, inRange: nat)             // requiredInvocations, inRangeInvocations
    | VariableRate(period: nat, since: Option<int>)      // inRangeSince

  /** A sensor reading: its band, and the steady clock when the callback runs. */
  datatype Reading = Reading(band: HeatingStatus, now: int)

  datatype Watch = Watch(memory: Memory, status: HeatingStatus)

  /** One invocation of the callback. */
  function React(w: Watch, r: Reading): Watch {
    match w.memory
    case FixedRate(required, inRange) =>
      if r.band != Ready then Watch(FixedRate(required, 0), r.band)
      else if w.status == Ready then w
      else if inRange + 1 < required then w.(memory := FixedRate(required, inRange + 1))
      else Watch(FixedRate(required, inRange + 1), Ready)
    case VariableRate(period, since) =>
      if r.band != Ready then Watch(VariableRate(period, None), r.band)
      else if w.status == Ready then w
      else
        var start := if since.None? then r.now else since.value;
        if r.now - start >= period then Watch(VariableRate(period, None), Ready)
        else w.(memory := VariableRate(period, Some(start)))
  }

  /** The state after a whole history of readings. */
  function Observe(w: Watch, rs: seq<Reading>): Watch {
    if rs == [] then w else React(Observe(w, rs[..|rs| - 1]), rs[|rs| - 1])
  }

  // ---------------------------------------------------------------- history specifications

  /** Number of in-range readings at the end of the history. */
  function RunLength(rs: seq<Reading>): (k: nat)
    ensures k <= |rs|
    ensures forall i :: |rs| - k <= i < |rs| ==> rs[i].band == Ready
    ensures k < |rs| ==> rs[|rs| - k - 1].band != Ready
  {
    if rs == [] || rs[|rs| - 1].band != Ready then 0 else 1 + RunLength(rs[..|rs| - 1])
  }

  /** The run has lasted since a registration that found the heater ready. */
  predicate ReadyThroughout(init: HeatingStatus, rs: seq<Reading>) {
    init == Ready && RunLength(rs) == |rs|
  }

  /** The class of the last out-of-range reading, or the initial status. */
  function LastOutside(init: HeatingStatus, rs: seq<Reading>): HeatingStatus {
    var k := RunLength(rs);
    if k == |rs| then init else rs[|rs| - k - 1].band
  }

  function Min(a: nat, b: nat): nat {
    if a < b then a else b
  }

  /** Sample-counting automaton: ready iff the current run is long enough or goes back to a ready start. */
  lemma {:induction false} FixedRateMeetsHistory(required: nat, init: HeatingStatus, rs: seq<Reading>)
    requires required >= 1
    ensures var w := Observe(Watch(FixedRate(required, 0), init), rs);
            && (w.status == Ready <==> ReadyThroughout(init, rs) || RunLength(rs) >= required)
            && (w.status != Ready ==> w.status == LastOutside(init, rs))
            && w.memory == FixedRate(required, if ReadyThroughout(init, rs) then 0 else Min(RunLength(rs), required))
    decreases |rs|
  {
    if rs != [] {
      FixedRateMeetsHistory(required, init, rs[..|rs| - 1]);
    }
  }

  /** Some reading from `start` on came at least `period` after the one at `start`. */
  ghost predicate LastedFrom(rs: seq<Reading>, start: nat, period: nat) {
    exists j :: start <= j < |rs| && rs[j].now - rs[start].now >= period
  }

  /** A reading outside ends the run, whatever came before. */
  lemma OutsideEndsRun(init: HeatingStatus, rs: seq<Reading>, period: nat)
    requires rs != [] && rs[|rs| - 1].band != Ready
    ensures RunLength(rs) == 0 && !ReadyThroughout(init, rs) && !RunLasted(rs, period)
    ensures LastOutside(init, rs) == rs[|rs| - 1].band
  {
  }

  lemma LastedFromGrows(rs: seq<Reading>, start: nat, period: nat)
    requires start < |rs|
    ensures LastedFrom(rs, start, period) <==>
              LastedFrom(rs[..|rs| - 1], start, period) || rs[|rs| - 1].now - rs[start].now >= period
  {
    var before := rs[..|rs| - 1];
    if j :| start <= j < |before| && before[j].now - before[start].now >= period {
      assert rs[j] == before[j] && rs[start] == before[start];
    }
    if j :| start <= j < |rs| && rs[j].now - rs[start].now >= period {
      if j < |before| {
        assert rs[j] == before[j] && rs[start] == before[start];
      }
    }
  }

  /** The current run lasted at least `period`, counted from its first reading. */
  ghost predicate RunLasted(rs: seq<Reading>, period: nat) {
    LastedFrom(rs, |rs| - RunLength(rs), period)
  }

  /** Clock-based automaton: ready iff the current run lasted the period or goes back to a ready start. */
  lemma {:induction false} VariableRateMeetsHistory(period: nat, init: HeatingStatus, rs: seq<Reading>)
    ensures var w := Observe(Watch(VariableRate(period, None), init), rs);
            && (w.status == Ready <==> ReadyThroughout(init, rs) || RunLasted(rs, period))
            && (w.status != Ready ==> w.status == LastOutside(init, rs))
            && w.memory == VariableRate(period,
                 if w.status == Ready || RunLength(rs) == 0 then None else Some(rs[|rs| - RunLength(rs)].now))
    decreases |rs|
  {
    if rs != [] {
      VariableRateMeetsHistory(period, init, rs[..|rs| - 1]);
      if rs[|rs| - 1].band == Ready {
        LastedFromGrows(rs, |rs| - RunLength(rs), period);
      } else {
        OutsideEndsRun(init, rs, period);
      }
    }
  }

  /** With a clock that never goes back, only the last reading matters. */
  lemma RunLastedOnMonotoneClock(rs: seq<Reading>, period: nat)
    requires forall i, j :: 0 <= i <= j < |rs| ==> rs[i].now <= rs[j].now
    ensures RunLasted(rs, period) <==>
              RunLength(rs) > 0 && rs[|rs| - 1].now - rs[|rs| - RunLength(rs)].now >= period
  {
  }

  // ---------------------------------------------------------------- the two automata compared

  /** ceil(period / rate) on exact ticks. */
  function CeilDiv(period: nat, rate: nat): nat
    requires rate > 0
  {
    (period + rate - 1) / rate
  }

  function RequiredInvocations(period: nat, rate: nat): (r: nat)
    requires rate > 0
    ensures r >= 1
  {
    if CeilDiv(period, rate) < 1 then 1 else CeilDiv(period, rate)
  }

  lemma CeilDivBounds(period: nat, rate: nat, n: nat)
    requires rate > 0
    ensures n * rate >= period <==> n >= CeilDiv(period, rate)
  {
    var q := CeilDiv(period, rate);
    var r := (period + rate - 1) % rate;
    assert period + rate - 1 == rate * q + r;
    if n >= q {
      assert n * rate >= q * rate by { MulMonotone(q, n, rate); }
    } else {
      assert n * rate <= (q - 1) * rate by { MulMonotone(n, q - 1, rate); }
      assert (q - 1) * rate == q * rate - rate;
    }
  }

  lemma MulMonotone(a: int, b: int, c: nat)
    requires a <= b
    ensures a * c <= b * c
  {
  }

  /** The least number of readings, at least one, that spans the period at this rate. */
  lemma RequiredInvocationsIsLeast(period: nat, rate: nat, n: nat)
    requires rate > 0
    ensures RequiredInvocations(period, rate) <= n <==> n >= 1 && n * rate >= period
  {
    CeilDivBounds(period, rate, n);
  }

  predicate EvenlySpaced(rs: seq<Reading>, rate: nat) {
    forall i :: 0 < i < |rs| ==> rs[i].now == rs[i - 1].now + rate
  }

  lemma {:induction false} SpacedDistance(rs: seq<Reading>, rate: nat, i: nat, j: nat)
    requires EvenlySpaced(rs, rate) && i <= j < |rs|
    ensures rs[j].now - rs[i].now == (j - i) * rate
    decreases j - i
  {
    if i < j {
      SpacedDistance(rs, rate, i, j - 1);
      assert (j - i) * rate == (j - 1 - i) * rate + rate;
    }
  }

  lemma SpacedRunLasted(rs: seq<Reading>, period: nat, rate: nat)
    requires rate > 0 && EvenlySpaced(rs, rate)
    ensures RunLasted(rs, period) <==> RunLength(rs) > 0 && RunLength(rs) - 1 >= CeilDiv(period, rate)
  {
    var k := RunLength(rs);
    var start := |rs| - k;
    if k > 0 {
      SpacedDistance(rs, rate, start, |rs| - 1);
      CeilDivBounds(period, rate, k - 1);
    }
    if RunLasted(rs, period) {
      var j :| start <= j < |rs| && rs[j].now - rs[start].now >= period;
      SpacedDistance(rs, rate, start, j);
      CeilDivBounds(period, rate, j - start);
    }
  }

  /**
    On readings spaced by the update rate, from the same initial status: the clock-based automaton is
    never ready before the counting one, and they differ exactly on runs of the required length that
    do not go back to a ready start, when the period is positive.
   */
  lemma AutomataCompared(period: nat, rate: nat, init: HeatingStatus, rs: seq<Reading>)
    requires rate > 0 && EvenlySpaced(rs, rate)
    ensures var required := RequiredInvocations(period, rate);
            var fixed := Observe(Watch(FixedRate(required, 0), init), rs).status;
            var variable := Observe(Watch(VariableRate(period, None), init), rs).status;
            && (variable == Ready ==> fixed == Ready)
            && (fixed != variable <==>
                  period > 0 && RunLength(rs) == required && !ReadyThroughout(init, rs))
  {
    var required := RequiredInvocations(period, rate);
    FixedRateMeetsHistory(required, init, rs);
    VariableRateMeetsHistory(period, init, rs);
    SpacedRunLasted(rs, period, rate);
    CeilDivBounds(period, rate, 0);
  }
}
