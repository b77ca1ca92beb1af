/** What automatic quality does to the settings, told by the samples themselves, and what a configuration asks for. */
module QualityEffects {
  import opened Common
  import opened QualityPolicy

  /** A sample over one to fifteen seconds. */
  predicate Timely(e: Event) {
    && e.Sample? && e.metrics.Some? && e.metrics.value.sampleIntervalMs.Some?
    && e.metrics.value.sampleIntervalMs.value >= 1_000.0 && e.metrics.value.sampleIntervalMs.value <= 15_000.0
  }

  /** A timely sample that reports a limited encoder, five percent of loss, or a round trip of 400 ms. */
  predicate Strain(e: Event) {
    && Timely(e)
    && var m := e.metrics.value;
    || m.reason in {Some(Cpu), Some(Bandwidth)}
    || (m.packetLossRatio.Some? && m.packetLossRatio.value >= 0.05)
    || (m.roundTripTimeMs.Some? && m.roundTripTimeMs.value >= 400.0)
  }

  /** A timely sample that reports an unlimited encoder, less than one percent of loss, and a round trip below 200 ms. */
  predicate Ease(e: Event) {
    && Timely(e)
    && var m := e.metrics.value;
    && m.reason == Some(NoLimit)
    && (m.packetLossRatio.Some? ==> m.packetLossRatio.value < 0.01)
    && m.roundTripTimeMs.Some? && m.roundTripTimeMs.value < 200.0
  }

  /** How many of the latest events are strained, or at ease, without a break. */
  function StrainStreak(events: seq<Event>): nat {
    if events == [] || !Strain(events[|events| - 1]) then 0 else StrainStreak(events[..|events| - 1]) + 1
  }

  function EaseStreak(events: seq<Event>): nat {
    if events == [] || !Ease(events[|events| - 1]) then 0 else EaseStreak(events[..|events| - 1]) + 1
  }

  /** The bound, or the value when it is the greater of the two. */
  predicate AtLeast(result: real, bound: real, value: real) {
    result >= bound && result >= value && (result == bound || result == value)
  }

  predicate AtMost(result: real, bound: real, value: real) {
    result <= bound && result <= value && (result == bound || result == value)
  }

  /** 0.7 of the bitrate rounded half up, 0.8 of the frame rate rounded down, a quarter more divisor, no further than the floor. */
  predicate ReducedTo(next: Encoding, e: Encoding, ceiling: Encoding) {
    var bitrate, frameRate := 0.7 * e.maxBitrate as real, 0.8 * e.maxFrameRate as real;
    var least := if ceiling.maxBitrate < 250_000 then ceiling.maxBitrate else 250_000;
    var fewest := if ceiling.maxFrameRate < 5 then ceiling.maxFrameRate else 5;
    && next.maxBitrate >= least && next.maxBitrate as real > bitrate - 0.5
    && (next.maxBitrate > least ==> next.maxBitrate as real <= bitrate + 0.5)
    && next.maxFrameRate >= fewest && next.maxFrameRate as real > frameRate - 1.0
    && (next.maxFrameRate > fewest ==> next.maxFrameRate as real <= frameRate)
    && AtMost(next.scale, if ceiling.scale > 4.0 then ceiling.scale else 4.0, 1.25 * e.scale)
  }

  /** The bitrate over 0.7 and the frame rate over 0.8, both rounded up, and the divisor over 1.25, no further than the ceiling. */
  predicate RaisedTo(next: Encoding, e: Encoding, ceiling: Encoding) {
    && next.maxBitrate <= ceiling.maxBitrate && (next.maxBitrate as real - 1.0) * 0.7 < e.maxBitrate as real
    && (next.maxBitrate < ceiling.maxBitrate ==> next.maxBitrate as real * 0.7 >= e.maxBitrate as real)
    && next.maxFrameRate <= ceiling.maxFrameRate && (next.maxFrameRate as real - 1.0) * 0.8 < e.maxFrameRate as real
    && (next.maxFrameRate < ceiling.maxFrameRate ==> next.maxFrameRate as real * 0.8 >= e.maxFrameRate as real)
    && AtLeast(next.scale, ceiling.scale, if e.scale < 1.25 then 1.0 else e.scale / 1.25)
  }

  lemma StrainIsPressure(e: Event)
    ensures Strain(e) <==> IsPressured(e)
    ensures Ease(e) <==> IsHealthy(e)
    ensures !(Strain(e) && Ease(e))
  {
  }

  lemma DecreasedIsReduced(e: Encoding, ceiling: Encoding)
    ensures ReducedTo(Decreased(e, ceiling), e, ceiling)
  {
    var b, f := ReducedBitrate(e.maxBitrate), ReducedFrameRate(e.maxFrameRate);
    assert 10 * b <= 7 * e.maxBitrate + 5 < 10 * b + 10;
    assert 5 * f <= 4 * e.maxFrameRate < 5 * f + 5;
  }

  lemma IncreasedIsRaised(e: Encoding, ceiling: Encoding)
    ensures RaisedTo(Increased(e, ceiling), e, ceiling)
  {
    var b, f := RaisedBitrate(e.maxBitrate), RaisedFrameRate(e.maxFrameRate);
    assert 7 * b <= 10 * e.maxBitrate + 6 < 7 * b + 7;
    assert 4 * f <= 5 * e.maxFrameRate + 3 < 4 * f + 4;
  }

  /** In any run the counters are the streaks, counted in threes and in sixes. */
  lemma {:induction false} CountersAreStreaks(start: Encoding, ceiling: Encoding, events: seq<Event>)
    ensures Run(Control(start, NO_HISTORY, 0), ceiling, events).history
         == History(StrainStreak(events) % 3, EaseStreak(events) % 6)
  {
    if events != [] {
      var init, e := events[..|events| - 1], events[|events| - 1];
      CountersAreStreaks(start, ceiling, init);
      StrainIsPressure(e);
      StreaksExclude(init);
    }
  }

  lemma StreaksExclude(events: seq<Event>)
    ensures StrainStreak(events) == 0 || EaseStreak(events) == 0
  {
    if events != [] {
      StrainIsPressure(events[|events| - 1]);
    }
  }

  /**
   In any run the settings are reduced on every third sample of an unbroken streak of strained ones,
   raised on every sixth of an unbroken streak at ease, and never touched otherwise.
   */
  lemma SettingsFollowStreaks(start: Encoding, ceiling: Encoding, events: seq<Event>, e: Event)
    ensures var before := Run(Control(start, NO_HISTORY, 0), ceiling, events).current;
            var after := Run(Control(start, NO_HISTORY, 0), ceiling, events + [e]).current;
            var strained, eased := StrainStreak(events + [e]), EaseStreak(events + [e]);
            if strained > 0 && strained % 3 == 0 then ReducedTo(after, before, ceiling)
            else if eased > 0 && eased % 6 == 0 then RaisedTo(after, before, ceiling)
            else after == before
  {
    var all := events + [e];
    assert all[..|all| - 1] == events;
    CountersAreStreaks(start, ceiling, events);
    StreaksExclude(events);
    StrainIsPressure(e);
    SampleFollowsStreaks(Run(Control(start, NO_HISTORY, 0), ceiling, events), ceiling, e, StrainStreak(events), EaseStreak(events));
  }

  lemma SampleFollowsStreaks(c: Control, ceiling: Encoding, e: Event, strained: nat, eased: nat)
    requires c.history == History(strained % 3, eased % 6) && (strained == 0 || eased == 0)
    ensures var after := Next(c, ceiling, e).current;
            && (Strain(e) && (strained + 1) % 3 == 0 ==> ReducedTo(after, c.current, ceiling))
            && (Ease(e) && (eased + 1) % 6 == 0 ==> RaisedTo(after, c.current, ceiling))
            && (!(Strain(e) && (strained + 1) % 3 == 0) && !(Ease(e) && (eased + 1) % 6 == 0) ==> after == c.current)
  {
    StrainIsPressure(e);
    if Strain(e) {
      PressuredAdapt(c, ceiling, e);
      DecreasedIsReduced(c.current, ceiling);
    } else if Ease(e) {
      HealthyAdapt(c, ceiling, e);
      IncreasedIsRaised(c.current, ceiling);
    } else {
      NeitherAdapts(c, ceiling, e);
    }
  }

  lemma NeitherAdapts(c: Control, ceiling: Encoding, e: Event)
    requires !IsPressured(e) && !IsHealthy(e) && Settled(c.history)
    ensures Next(c, ceiling, e).current == c.current
  {
  }

  /** The settings asked for, no more demanding than the limits. */
  predicate Bounded(e: Encoding, asked: Encoding, limits: Encoding) {
    && AtMost(e.maxBitrate as real, limits.maxBitrate as real, asked.maxBitrate as real)
    && AtMost(e.maxFrameRate as real, limits.maxFrameRate as real, asked.maxFrameRate as real)
    && AtLeast(e.scale, limits.scale, asked.scale)
  }

  /** Every configuration gets its own settings where the limits allow them, and the limits where they do not. */
  lemma ConfigurationIsBounded(limits: Encoding, custom: Encoding)
    ensures Bounded(ConfiguredEncoding(Fixed(DataSaver), limits), Encoding(750_000, 15, 2.0), limits)
    ensures Bounded(ConfiguredEncoding(Fixed(Balanced), limits), Encoding(2_500_000, 30, 1.0), limits)
    ensures Bounded(ConfiguredEncoding(Fixed(High), limits), Encoding(6_000_000, 60, 1.0), limits)
    ensures Bounded(ConfiguredEncoding(Auto, limits), Encoding(2_500_000, 30, 1.0), limits)
    ensures Bounded(ConfiguredEncoding(Custom(custom), limits), custom, limits)
  {
  }
}
