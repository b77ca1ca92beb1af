/**
 Automatic media quality: bounded, hysteretic feedback control of the encoder settings.
 Bitrate and frame rate are integers, the resolution divisor is an exact real.
 */
module QualityPolicy {
  import opened Common

  datatype Encoding = Encoding(maxBitrate: int, maxFrameRate: int, scale: real)

  datatype Preset = DataSaver | Balanced | High

  datatype Configuration = Auto | Fixed(preset: Preset) | Custom(settings: Encoding)

  datatype LimitationReason = NoLimit | Cpu | Bandwidth | OtherLimit

  datatype Metrics = Metrics(
    sampleIntervalMs: Option<real>,
    reason: Option<LimitationReason>,
    packetLossRatio: Option<real>,
    roundTripTimeMs: Option<real>)

  function Min(a: int, b: int): int { if a <= b then a else b }
  function Max(a: int, b: int): int { if a >= b then a else b }
  function MinReal(a: real, b: real): real { if a <= b then a else b }
  function MaxReal(a: real, b: real): real { if a >= b then a else b }

  function BoundEncoding(settings: Encoding, limits: Encoding): Encoding {
    Encoding(
      Min(settings.maxBitrate, limits.maxBitrate),
      Min(settings.maxFrameRate, limits.maxFrameRate),
      MaxReal(settings.scale, limits.scale))
  }

  function ConfiguredEncoding(configuration: Configuration, limits: Encoding): Encoding {
    var settings := match configuration
      case Custom(s) => s
      case Fixed(DataSaver) => Encoding(750_000, 15, 2.0)
      case Fixed(High) => Encoding(6_000_000, 60, 1.0)
      case Fixed(Balanced) => Encoding(2_500_000, 30, 1.0)
      case Auto => Encoding(2_500_000, 30, 1.0);
    BoundEncoding(settings, limits)
  }

  /** What the publisher passes as the ceiling of automatic mode. */
  function AutoCeiling(limits: Encoding): Encoding {
    BoundEncoding(Encoding(6_000_000, 60, 1.0), limits)
  }

  /** The ranges the encoding schema admits. */
  predicate InSchema(e: Encoding) {
    && 100_000 <= e.maxBitrate <= 20_000_000
    && 1 <= e.maxFrameRate <= 60
    && 1.0 <= e.scale <= 4.0
  }

  // ------------------------------------------------------------ one sample

  datatype History = History(pressureSamples: nat, healthySamples: nat)

  const NO_HISTORY := History(0, 0)

  predicate Usable(m: Option<Metrics>) {
    && m.Some? && m.value.sampleIntervalMs.Some?
    && 1_000.0 <= m.value.sampleIntervalMs.value <= 15_000.0
  }

  function OrZero(r: Option<real>): real {
    if r.Some? then r.value else 0.0
  }

  predicate Pressure(m: Metrics) {
    m.reason == Some(Cpu) || m.reason == Some(Bandwidth)
    || OrZero(m.packetLossRatio) >= 0.05 || OrZero(m.roundTripTimeMs) >= 400.0
  }

  predicate Healthy(m: Metrics) {
    m.reason == Some(NoLimit) && OrZero(m.packetLossRatio) < 0.01
    && m.roundTripTimeMs.Some? && m.roundTripTimeMs.value < 200.0
  }

  /** Math.round of 0.7 times a bitrate. */
  function ReducedBitrate(b: int): int { (7 * b + 5) / 10 }
  /** Math.floor of 0.8 times a frame rate. */
  function ReducedFrameRate(f: int): int { 4 * f / 5 }
  /** Math.ceil of a bitrate over 0.7. */
  function RaisedBitrate(b: int): int { (10 * b + 6) / 7 }
  /** Math.ceil of a frame rate over 0.8. */
  function RaisedFrameRate(f: int): int { (5 * f + 3) / 4 }

  /** The least demanding settings automatic mode goes down to. */
  function Floor(ceiling: Encoding): Encoding {
    Encoding(Min(250_000, ceiling.maxBitrate), Min(5, ceiling.maxFrameRate), MaxReal(4.0, ceiling.scale))
  }

  function Decreased(current: Encoding, ceiling: Encoding): Encoding {
    Encoding(
      Max(Min(250_000, ceiling.maxBitrate), ReducedBitrate(current.maxBitrate)),
      Max(Min(5, ceiling.maxFrameRate), ReducedFrameRate(current.maxFrameRate)),
      MinReal(MaxReal(4.0, ceiling.scale), current.scale * 1.25))
  }

  function Increased(current: Encoding, ceiling: Encoding): Encoding {
    BoundEncoding(Encoding(
      RaisedBitrate(current.maxBitrate),
      RaisedFrameRate(current.maxFrameRate),
      MaxReal(1.0, current.scale / 1.25)), ceiling)
  }

  /** The new history, and the settings to apply when they differ from the current ones. */
  function Adapt(m: Option<Metrics>, current: Encoding, ceiling: Encoding, h: History): (History, Option<Encoding>) {
    if !Usable(m) then (NO_HISTORY, None)
    else
      var pressure := if Pressure(m.value) then h.pressureSamples + 1 else 0;
      var healthy := if Healthy(m.value) then h.healthySamples + 1 else 0;
      if pressure >= 3 then
        var next := Decreased(current, ceiling);
        (History(0, healthy), if next != current then Some(next) else None)
      else if healthy >= 6 then
        var next := Increased(current, ceiling);
        (History(pressure, 0), if next != current then Some(next) else None)
      else (History(pressure, healthy), None)
  }

  /** The counters a publisher keeps between samples. */
  class AutomaticQualityHistory {
    var pressureSamples: nat
    var healthySamples: nat

    function View(): History
      reads this
    {
      History(pressureSamples, healthySamples)
    }

    constructor ()
      ensures View() == NO_HISTORY
    {
      pressureSamples, healthySamples := 0, 0;
    }

    method AdaptEncoding(metrics: Option<Metrics>, current: Encoding, ceiling: Encoding) returns (change: Option<Encoding>)
      modifies this
      ensures (View(), change) == Adapt(metrics, current, ceiling, old(View()))
    {
      if metrics.None? || metrics.value.sampleIntervalMs.None?
         || metrics.value.sampleIntervalMs.value < 1_000.0 || metrics.value.sampleIntervalMs.value > 15_000.0 {
        pressureSamples := 0;
        healthySamples := 0;
        return None;
      }
      var pressure := Pressure(metrics.value);
      var healthy := Healthy(metrics.value);
      pressureSamples := if pressure then pressureSamples + 1 else 0;
      healthySamples := if healthy then healthySamples + 1 else 0;
      var next: Option<Encoding> := None;
      if pressureSamples >= 3 {
        pressureSamples := 0;
        next := Some(Encoding(
          Max(Min(250_000, ceiling.maxBitrate), ReducedBitrate(current.maxBitrate)),
          Max(Min(5, ceiling.maxFrameRate), ReducedFrameRate(current.maxFrameRate)),
          MinReal(MaxReal(4.0, ceiling.scale), current.scale * 1.25)));
      } else if healthySamples >= 6 {
        healthySamples := 0;
        next := Some(BoundEncoding(Encoding(
          RaisedBitrate(current.maxBitrate),
          RaisedFrameRate(current.maxFrameRate),
          MaxReal(1.0, current.scale / 1.25)), ceiling));
      }
      if next.Some? && (next.value.maxBitrate != current.maxBitrate || next.value.maxFrameRate != current.maxFrameRate
                        || next.value.scale != current.scale) {
        return next;
      }
      return None;
    }
  }

  // ------------------------------------------------------------------ runs

  /** A sample reaches the policy, or a suspension or capture change clears the counters. */
  datatype Event = Sample(metrics: Option<Metrics>) | Reset

  /** Settings in force, counters, and how often the settings were changed. */
  datatype Control = Control(current: Encoding, history: History, changes: nat)

  /** The sender applies what the policy asks for. */
  function Next(c: Control, ceiling: Encoding, e: Event): Control {
    match e
    case Reset => c.(history := NO_HISTORY)
    case Sample(m) =>
      var (h, change) := Adapt(m, c.current, ceiling, c.history);
      if change.Some? then Control(change.value, h, c.changes + 1) else c.(history := h)
  }

  function Run(start: Control, ceiling: Encoding, events: seq<Event>): Control {
    if events == [] then start
    else Next(Run(start, ceiling, events[..|events| - 1]), ceiling, events[|events| - 1])
  }

  function AutoStart(limits: Encoding): Control {
    Control(ConfiguredEncoding(Auto, limits), NO_HISTORY, 0)
  }

  /** At or below the ceiling's demand and at or above the floor's. */
  predicate Within(e: Encoding, ceiling: Encoding) {
    && Floor(ceiling).maxBitrate <= e.maxBitrate <= ceiling.maxBitrate
    && Floor(ceiling).maxFrameRate <= e.maxFrameRate <= ceiling.maxFrameRate
    && ceiling.scale <= e.scale <= Floor(ceiling).scale
  }

  /** A ceiling automatic mode can be given by limits inside the schema. */
  predicate Ceiling(c: Encoding) {
    InSchema(c) && c.maxBitrate <= 6_000_000
  }

  /** The counters are below their thresholds and never both positive. */
  predicate Settled(h: History) {
    h.pressureSamples < 3 && h.healthySamples < 6 && (h.pressureSamples == 0 || h.healthySamples == 0)
  }

  lemma NextStaysWithin(c: Control, ceiling: Encoding, e: Event)
    requires Ceiling(ceiling) && Within(c.current, ceiling) && Settled(c.history)
    ensures Within(Next(c, ceiling, e).current, ceiling) && Settled(Next(c, ceiling, e).history)
    ensures InSchema(Next(c, ceiling, e).current)
  {
  }

  /** From the automatic start, no sample sequence leaves the floor-to-ceiling envelope or the schema. */
  lemma {:induction false} EnvelopeHolds(limits: Encoding, events: seq<Event>)
    requires InSchema(limits)
    ensures var c := Run(AutoStart(limits), AutoCeiling(limits), events);
            Within(c.current, AutoCeiling(limits)) && InSchema(c.current) && Settled(c.history)
    ensures BoundEncoding(Run(AutoStart(limits), AutoCeiling(limits), events).current, limits)
         == Run(AutoStart(limits), AutoCeiling(limits), events).current
  {
    if events != [] {
      EnvelopeHolds(limits, events[..|events| - 1]);
      NextStaysWithin(Run(AutoStart(limits), AutoCeiling(limits), events[..|events| - 1]), AutoCeiling(limits), events[|events| - 1]);
    }
  }

  // ------------------------------------------------------------ hysteresis

  predicate IsPressured(e: Event) {
    e.Sample? && Usable(e.metrics) && Pressure(e.metrics.value)
  }

  predicate IsHealthy(e: Event) {
    e.Sample? && Usable(e.metrics) && Healthy(e.metrics.value)
  }

  /** The counters are the lengths of the pressured and healthy streaks at the end of the run. */
  predicate CountsStreaks(h: History, events: seq<Event>) {
    && h.pressureSamples <= |events| && h.healthySamples <= |events|
    && (forall i :: |events| - h.pressureSamples <= i < |events| ==> IsPressured(events[i]))
    && (forall i :: |events| - h.healthySamples <= i < |events| ==> IsHealthy(events[i]))
  }

  /** How many samples, of any kind, are among the events; a reset is none. */
  function Samples(events: seq<Event>): nat {
    if events == [] then 0
    else Samples(events[..|events| - 1]) + if events[|events| - 1].Sample? then 1 else 0
  }

  /** How many samples the changes so far account for, counted in threes, plus the running streak. */
  predicate ChangesPaid(c: Control, n: nat) {
    3 * c.changes + c.history.pressureSamples <= n && 3 * c.changes + c.history.healthySamples <= n
  }

  lemma {:induction false} CountersCountStreaks(start: Encoding, ceiling: Encoding, events: seq<Event>)
    ensures var c := Run(Control(start, NO_HISTORY, 0), ceiling, events);
            Settled(c.history) && CountsStreaks(c.history, events)
  {
    if events != [] {
      CountersCountStreaks(start, ceiling, events[..|events| - 1]);
    }
  }

  lemma NextIsPaid(c: Control, ceiling: Encoding, e: Event, n: nat)
    requires Settled(c.history) && ChangesPaid(c, n)
    ensures ChangesPaid(Next(c, ceiling, e), n + if e.Sample? then 1 else 0)
  {
  }

  lemma {:induction false} ChangesArePaid(start: Encoding, ceiling: Encoding, events: seq<Event>)
    ensures ChangesPaid(Run(Control(start, NO_HISTORY, 0), ceiling, events), Samples(events))
  {
    if events != [] {
      var init := events[..|events| - 1];
      ChangesArePaid(start, ceiling, init);
      CountersCountStreaks(start, ceiling, init);
      NextIsPaid(Run(Control(start, NO_HISTORY, 0), ceiling, init), ceiling, events[|events| - 1], Samples(init));
    }
  }

  /** n samples, however many resets come between them, cause at most n/3 changes, and the two counters are never both positive. */
  lemma ChangesAreRare(start: Encoding, ceiling: Encoding, events: seq<Event>)
    ensures var c := Run(Control(start, NO_HISTORY, 0), ceiling, events);
            c.changes <= Samples(events) / 3 && (c.history.pressureSamples == 0 || c.history.healthySamples == 0)
  {
    CountersCountStreaks(start, ceiling, events);
    ChangesArePaid(start, ceiling, events);
  }

  /** The events since the last reset, unusable sample or reached threshold, oldest first. */
  function SinceThreshold(start: Encoding, ceiling: Encoding, events: seq<Event>): (n: nat)
    ensures n <= |events|
  {
    if events == [] then 0
    else
      var init, e := events[..|events| - 1], events[|events| - 1];
      var h := Run(Control(start, NO_HISTORY, 0), ceiling, init).history;
      var n := SinceThreshold(start, ceiling, init);
      if e.Reset? || !Usable(e.metrics) then 0
      else if (IsPressured(e) && h.pressureSamples + 1 >= 3) || (IsHealthy(e) && h.healthySamples + 1 >= 6) then 0
      else n + 1
  }

  lemma {:induction false} StreaksStartAfterThreshold(start: Encoding, ceiling: Encoding, events: seq<Event>)
    ensures var c := Run(Control(start, NO_HISTORY, 0), ceiling, events);
            c.history.pressureSamples <= SinceThreshold(start, ceiling, events)
            && c.history.healthySamples <= SinceThreshold(start, ceiling, events)
  {
    if events != [] {
      StreaksStartAfterThreshold(start, ceiling, events[..|events| - 1]);
      CountersCountStreaks(start, ceiling, events[..|events| - 1]);
    }
  }

  /**
   A change of the settings is the third of three consecutive pressured samples, or the sixth of
   six consecutive healthy ones, all of them since the last reset or reached threshold.
   */
  lemma ChangeNeedsSustainedEvidence(start: Encoding, ceiling: Encoding, events: seq<Event>, e: Event)
    requires Run(Control(start, NO_HISTORY, 0), ceiling, events + [e]).changes > Run(Control(start, NO_HISTORY, 0), ceiling, events).changes
    ensures var n := SinceThreshold(start, ceiling, events);
            var all := events + [e];
            || (n >= 2 && forall i :: |all| - 3 <= i < |all| ==> IsPressured(all[i]))
            || (n >= 5 && forall i :: |all| - 6 <= i < |all| ==> IsHealthy(all[i]))
  {
    var all := events + [e];
    assert all[..|all| - 1] == events;
    CountersCountStreaks(start, ceiling, events);
    StreaksStartAfterThreshold(start, ceiling, events);
  }

  // ----------------------------------------------------------- convergence

  /** The bitrate after k reductions of the highest one, ignoring the floor. */
  function WorstBitrate(k: nat): int {
    if k == 0 then 6_000_000 else ReducedBitrate(WorstBitrate(k - 1))
  }

  function WorstFrameRate(k: nat): int {
    if k == 0 then 60 else ReducedFrameRate(WorstFrameRate(k - 1))
  }

  /** The smallest divisor k reductions can leave, ignoring the floor. */
  function WorstScale(k: nat): real {
    if k == 0 then 1.0 else WorstScale(k - 1) * 1.25
  }

  /** At most k reductions away from the floor. */
  predicate NearFloor(e: Encoding, ceiling: Encoding, k: nat) {
    && e.maxBitrate <= Max(Floor(ceiling).maxBitrate, WorstBitrate(k))
    && e.maxFrameRate <= Max(Floor(ceiling).maxFrameRate, WorstFrameRate(k))
    && e.scale >= MinReal(Floor(ceiling).scale, WorstScale(k))
  }

  lemma DecreaseNears(e: Encoding, ceiling: Encoding, k: nat)
    requires Ceiling(ceiling) && Within(e, ceiling) && NearFloor(e, ceiling, k)
    ensures Within(Decreased(e, ceiling), ceiling) && NearFloor(Decreased(e, ceiling), ceiling, k + 1)
  {
    var b, f := Max(Floor(ceiling).maxBitrate, WorstBitrate(k)), Max(Floor(ceiling).maxFrameRate, WorstFrameRate(k));
    assert ReducedBitrate(e.maxBitrate) <= ReducedBitrate(b);
    assert ReducedFrameRate(e.maxFrameRate) <= ReducedFrameRate(f);
    assert WorstScale(k + 1) == WorstScale(k) * 1.25;
  }

  lemma TenReductionsReachTheFloor()
    ensures WorstBitrate(10) <= 250_000 && WorstFrameRate(10) <= 5 && WorstScale(10) >= 4.0
  {
    assert WorstBitrate(1) == 4_200_000;
    assert WorstBitrate(2) == 2_940_000;
    assert WorstBitrate(3) == 2_058_000;
    assert WorstBitrate(4) == 1_440_600;
    assert WorstBitrate(5) == 1_008_420;
    assert WorstBitrate(6) == 705_894;
    assert WorstBitrate(7) == 494_126;
    assert WorstBitrate(8) == 345_888;
    assert WorstBitrate(9) == 242_122;
    assert WorstFrameRate(1) == 48 && WorstFrameRate(2) == 38 && WorstFrameRate(3) == 30;
    assert WorstFrameRate(4) == 24 && WorstFrameRate(5) == 19 && WorstFrameRate(6) == 15;
    assert WorstFrameRate(7) == 12 && WorstFrameRate(8) == 9 && WorstFrameRate(9) == 7;
    assert WorstScale(2) == 1.5625;
    assert WorstScale(4) >= 2.4;
    assert WorstScale(6) >= 3.7;
    assert WorstScale(8) >= 4.0;
  }

  function Capped(k: nat): nat { if k <= 10 then k else 10 }

  /** The state after q reached pressure thresholds and r samples more, from a start at `base` changes. */
  predicate UnderPressure(c: Control, ceiling: Encoding, q: nat, r: nat, base: nat) {
    && Within(c.current, ceiling) && Settled(c.history)
    && c.history.pressureSamples == r
    && NearFloor(c.current, ceiling, Capped(q))
    && c.changes <= base + Capped(q)
  }

  lemma AtFloorNothingChanges(e: Encoding, ceiling: Encoding)
    requires Ceiling(ceiling) && Within(e, ceiling) && NearFloor(e, ceiling, 10)
    ensures e == Floor(ceiling) && Decreased(e, ceiling) == e
  {
    TenReductionsReachTheFloor();
  }

  lemma PressuredAdapt(c: Control, ceiling: Encoding, e: Event)
    requires IsPressured(e) && Settled(c.history)
    ensures var next := if c.history.pressureSamples == 2 then Decreased(c.current, ceiling) else c.current;
            && Next(c, ceiling, e).current == next
            && Next(c, ceiling, e).changes == c.changes + (if next != c.current then 1 else 0)
            && Next(c, ceiling, e).history == History(if c.history.pressureSamples == 2 then 0 else c.history.pressureSamples + 1, 0)
  {
  }

  lemma PressuredSample(c: Control, ceiling: Encoding, e: Event, q: nat, r: nat, base: nat)
    requires Ceiling(ceiling) && UnderPressure(c, ceiling, q, r, base) && IsPressured(e)
    ensures r < 2 ==> UnderPressure(Next(c, ceiling, e), ceiling, q, r + 1, base)
    ensures r == 2 ==> UnderPressure(Next(c, ceiling, e), ceiling, q + 1, 0, base)
  {
    PressuredAdapt(c, ceiling, e);
    if r == 2 {
      if q < 10 {
        DecreaseNears(c.current, ceiling, q);
      } else {
        AtFloorNothingChanges(c.current, ceiling);
      }
    }
  }

  lemma PressureStarts(start: Control, ceiling: Encoding)
    requires Ceiling(ceiling) && Within(start.current, ceiling) && Settled(start.history)
    ensures UnderPressure(start, ceiling, 0, start.history.pressureSamples, start.changes)
  {
  }

  /**
   During pressure alone the reductions come every third sample; the first ten of them reach the
   floor and nothing changes after that.
   */
  lemma {:induction false} PressureApproachesFloor(start: Control, ceiling: Encoding, events: seq<Event>)
    returns (q: nat, r: nat)
    requires Ceiling(ceiling) && Within(start.current, ceiling) && Settled(start.history)
    requires forall i :: 0 <= i < |events| ==> IsPressured(events[i])
    ensures 3 * q + r == start.history.pressureSamples + |events| && r < 3
    ensures UnderPressure(Run(start, ceiling, events), ceiling, q, r, start.changes)
  {
    if events == [] {
      PressureStarts(start, ceiling);
      return 0, start.history.pressureSamples;
    }
    var init, e := events[..|events| - 1], events[|events| - 1];
    q, r := PressureApproachesFloor(start, ceiling, init);
    PressuredSample(Run(start, ceiling, init), ceiling, e, q, r, start.changes);
    if r == 2 {
      q, r := q + 1, 0;
    } else {
      r := r + 1;
    }
  }

  /** Sustained pressure reaches the floor within 30 samples and 10 changes, and then stays there. */
  lemma PressureReachesFloor(start: Control, ceiling: Encoding, events: seq<Event>)
    requires Ceiling(ceiling) && Within(start.current, ceiling) && Settled(start.history)
    requires |events| >= 30 && forall i :: 0 <= i < |events| ==> IsPressured(events[i])
    ensures Run(start, ceiling, events).current == Floor(ceiling)
    ensures Run(start, ceiling, events).changes <= start.changes + 10
  {
    var q, r := PressureApproachesFloor(start, ceiling, events);
    TenThresholdsReachTheFloor(Run(start, ceiling, events), ceiling, q, r, start.changes);
  }

  lemma TenThresholdsReachTheFloor(c: Control, ceiling: Encoding, q: nat, r: nat, base: nat)
    requires Ceiling(ceiling) && UnderPressure(c, ceiling, q, r, base) && q >= 10
    ensures c.current == Floor(ceiling) && c.changes <= base + 10
  {
    AtFloorNothingChanges(c.current, ceiling);
  }

  /** The bitrate after k increases of the lowest floor, ignoring the ceiling. */
  function LeastBitrate(k: nat): int {
    if k == 0 then 250_000 else RaisedBitrate(LeastBitrate(k - 1))
  }

  function LeastFrameRate(k: nat): int {
    if k == 0 then 5 else RaisedFrameRate(LeastFrameRate(k - 1))
  }

  function LargestScale(k: nat): real {
    if k == 0 then 4.0 else LargestScale(k - 1) / 1.25
  }

  /** At most k increases away from the ceiling. */
  predicate NearCeiling(e: Encoding, ceiling: Encoding, k: nat) {
    && e.maxBitrate >= Min(ceiling.maxBitrate, LeastBitrate(k))
    && e.maxFrameRate >= Min(ceiling.maxFrameRate, LeastFrameRate(k))
    && e.scale <= MaxReal(ceiling.scale, LargestScale(k))
  }

  lemma IncreaseNears(e: Encoding, ceiling: Encoding, k: nat)
    requires Ceiling(ceiling) && Within(e, ceiling) && NearCeiling(e, ceiling, k)
    ensures Within(Increased(e, ceiling), ceiling) && NearCeiling(Increased(e, ceiling), ceiling, k + 1)
  {
    var b, f := Min(ceiling.maxBitrate, LeastBitrate(k)), Min(ceiling.maxFrameRate, LeastFrameRate(k));
    assert RaisedBitrate(e.maxBitrate) >= RaisedBitrate(b);
    assert RaisedFrameRate(e.maxFrameRate) >= RaisedFrameRate(f);
    assert LargestScale(k + 1) == LargestScale(k) / 1.25;
  }

  lemma TenIncreasesReachTheCeiling()
    ensures LeastBitrate(10) >= 6_000_000 && LeastFrameRate(10) >= 60 && LargestScale(10) <= 1.0
  {
    assert LeastBitrate(1) == 357_143;
    assert LeastBitrate(2) == 510_205;
    assert LeastBitrate(3) == 728_865;
    assert LeastBitrate(4) == 1_041_236;
    assert LeastBitrate(5) == 1_487_480;
    assert LeastBitrate(6) == 2_124_972;
    assert LeastBitrate(7) == 3_035_675;
    assert LeastBitrate(8) == 4_336_679;
    assert LeastBitrate(9) == 6_195_256;
    assert LeastFrameRate(1) == 7 && LeastFrameRate(2) == 9 && LeastFrameRate(3) == 12;
    assert LeastFrameRate(4) == 15 && LeastFrameRate(5) == 19 && LeastFrameRate(6) == 24;
    assert LeastFrameRate(7) == 30 && LeastFrameRate(8) == 38 && LeastFrameRate(9) == 48;
    assert LargestScale(2) == 2.56;
    assert LargestScale(4) <= 1.64;
    assert LargestScale(6) <= 1.05;
    assert LargestScale(8) <= 1.0;
  }

  /** The state after q reached health thresholds and r samples more, from a start at `base` changes. */
  predicate InHealth(c: Control, ceiling: Encoding, q: nat, r: nat, base: nat) {
    && Within(c.current, ceiling) && Settled(c.history)
    && c.history.healthySamples == r
    && NearCeiling(c.current, ceiling, Capped(q))
    && c.changes <= base + Capped(q)
  }

  lemma AtCeilingNothingChanges(e: Encoding, ceiling: Encoding)
    requires Ceiling(ceiling) && Within(e, ceiling) && NearCeiling(e, ceiling, 10)
    ensures e == ceiling && Increased(e, ceiling) == e
  {
    TenIncreasesReachTheCeiling();
  }

  lemma HealthyAdapt(c: Control, ceiling: Encoding, e: Event)
    requires IsHealthy(e) && Settled(c.history)
    ensures var next := if c.history.healthySamples == 5 then Increased(c.current, ceiling) else c.current;
            && Next(c, ceiling, e).current == next
            && Next(c, ceiling, e).changes == c.changes + (if next != c.current then 1 else 0)
            && Next(c, ceiling, e).history == History(0, if c.history.healthySamples == 5 then 0 else c.history.healthySamples + 1)
  {
  }

  lemma HealthySample(c: Control, ceiling: Encoding, e: Event, q: nat, r: nat, base: nat)
    requires Ceiling(ceiling) && InHealth(c, ceiling, q, r, base) && IsHealthy(e)
    ensures r < 5 ==> InHealth(Next(c, ceiling, e), ceiling, q, r + 1, base)
    ensures r == 5 ==> InHealth(Next(c, ceiling, e), ceiling, q + 1, 0, base)
  {
    HealthyAdapt(c, ceiling, e);
    if r == 5 {
      if q < 10 {
        IncreaseNears(c.current, ceiling, q);
      } else {
        AtCeilingNothingChanges(c.current, ceiling);
      }
    }
  }

  lemma HealthStarts(start: Control, ceiling: Encoding)
    requires Ceiling(ceiling) && Within(start.current, ceiling) && Settled(start.history)
    ensures InHealth(start, ceiling, 0, start.history.healthySamples, start.changes)
  {
  }

  lemma {:induction false} HealthApproachesCeiling(start: Control, ceiling: Encoding, events: seq<Event>)
    returns (q: nat, r: nat)
    requires Ceiling(ceiling) && Within(start.current, ceiling) && Settled(start.history)
    requires forall i :: 0 <= i < |events| ==> IsHealthy(events[i])
    ensures 6 * q + r == start.history.healthySamples + |events| && r < 6
    ensures InHealth(Run(start, ceiling, events), ceiling, q, r, start.changes)
  {
    if events == [] {
      HealthStarts(start, ceiling);
      return 0, start.history.healthySamples;
    }
    var init, e := events[..|events| - 1], events[|events| - 1];
    q, r := HealthApproachesCeiling(start, ceiling, init);
    HealthySample(Run(start, ceiling, init), ceiling, e, q, r, start.changes);
    if r == 5 {
      q, r := q + 1, 0;
    } else {
      r := r + 1;
    }
  }

  /** Sustained health returns exactly to the ceiling within 60 samples and 10 changes, and stays. */
  lemma HealthReachesCeiling(start: Control, ceiling: Encoding, events: seq<Event>)
    requires Ceiling(ceiling) && Within(start.current, ceiling) && Settled(start.history)
    requires |events| >= 60 && forall i :: 0 <= i < |events| ==> IsHealthy(events[i])
    ensures Run(start, ceiling, events).current == ceiling
    ensures Run(start, ceiling, events).changes <= start.changes + 10
  {
    var q, r := HealthApproachesCeiling(start, ceiling, events);
    AtCeilingNothingChanges(Run(start, ceiling, events).current, ceiling);
  }

  /**
   A decrease followed by an increase never leaves the bitrate or the resolution worse than before.
   The frame rate is one frame lower exactly when it was 11, 16, 21, ... and not lower otherwise.
   */
  lemma DecreaseThenIncrease(e: Encoding, ceiling: Encoding)
    requires Ceiling(ceiling) && Within(e, ceiling)
    ensures var back := Increased(Decreased(e, ceiling), ceiling);
            && back.maxBitrate >= e.maxBitrate
            && back.scale <= e.scale
            && (back.maxFrameRate < e.maxFrameRate <==> e.maxFrameRate >= 11 && e.maxFrameRate % 5 == 1)
            && back.maxFrameRate >= e.maxFrameRate - 1
  {
    var b, f := e.maxBitrate, e.maxFrameRate;
    assert 10 * ReducedBitrate(b) >= 7 * b - 4;
    assert 7 * RaisedBitrate(Decreased(e, ceiling).maxBitrate) >= 10 * ReducedBitrate(b);
    var q, r := f / 5, f % 5;
    assert f == 5 * q + r && ReducedFrameRate(f) == 4 * q + 4 * r / 5;
    assert RaisedFrameRate(4 * q + 4 * r / 5) == 5 * q + (5 * (4 * r / 5) + 3) / 4;
  }
}
