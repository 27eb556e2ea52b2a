/**
 * The average-speed filter of the track list: a range filter whose bounds are
 * in the user's speed unit, applied to a track's average speed in metres per
 * second after multiplying by the unit's coefficient.
 */
module AverageSpeedFilter {
  import opened Wrappers

  /** The app's metric systems. */
  datatype MetricsConstants =
    | KilometersAndMeters
    | MilesAndFeet
    | MilesAndMeters
    | MilesAndYards
    | NauticalMilesAndMeters
    | NauticalMilesAndFeet

  /** The string resources naming the speed unit. */
  datatype SpeedUnit = MilePerHour | NmH | KmH

  /** Every metric system has a speed unit: miles give mph, nautical miles nm/h, kilometres km/h. */
  function UnitResId(mc: MetricsConstants): (r: SpeedUnit)
    ensures r == MilePerHour <==> mc in {MilesAndMeters, MilesAndFeet, MilesAndYards}
    ensures r == NmH <==> mc in {NauticalMilesAndFeet, NauticalMilesAndMeters}
    ensures r == KmH <==> mc == KilometersAndMeters
  {
    match mc
    case MilesAndMeters | MilesAndFeet | MilesAndYards => MilePerHour
    case NauticalMilesAndFeet | NauticalMilesAndMeters => NmH
    case KilometersAndMeters => KmH
  }

  /** The factor from metres per second to the metric system's speed unit; it follows the unit shown. */
  function SpeedCoef(mc: MetricsConstants): (r: real)
    ensures UnitResId(mc) == MilePerHour ==> r == 2.237
    ensures UnitResId(mc) == NmH ==> r == 1.94384
    ensures UnitResId(mc) == KmH ==> r == 3.6
  {
    match mc
    case MilesAndMeters | MilesAndFeet | MilesAndYards => 2.237
    case NauticalMilesAndFeet | NauticalMilesAndMeters => 1.94384
    case KilometersAndMeters => 3.6
  }

  /** Seconds per hour over the unit's length in metres: the exact conversion factor of a unit. */
  function ExactFactor(u: SpeedUnit): real
  {
    match u
    case MilePerHour => 3600.0 / 1609.344
    case NmH => 3600.0 / 1852.0
    case KmH => 3600.0 / 1000.0
  }

  /**
   * The coefficient agrees with the unit shown: it is that unit's conversion
   * factor to within one part in a thousand.
   */
  lemma CoefMatchesUnit(mc: MetricsConstants)
    ensures var d := SpeedCoef(mc) - ExactFactor(UnitResId(mc));
            -0.001 < d < 0.001
  {
  }

  class AverageSpeedTrackFilter {
    var coef: real
    /** The range filter's state, inherited from the generic range filter. */
    var enabled: bool
    var valueFrom: real
    var valueTo: real
    var minValue: real
    var maxValue: real

    constructor (enabled: bool, valueFrom: real, valueTo: real, minValue: real, maxValue: real)
      ensures coef == 1.0
      ensures this.enabled == enabled && this.valueFrom == valueFrom && this.valueTo == valueTo
      ensures this.minValue == minValue && this.maxValue == maxValue
    {
      coef := 1.0;
      this.enabled := enabled;
      this.valueFrom := valueFrom;
      this.valueTo := valueTo;
      this.minValue := minValue;
      this.maxValue := maxValue;
    }

    /** The range is well formed: the chosen bounds lie within the extremes. */
    predicate WellFormed()
      reads this
    {
      minValue <= valueFrom <= valueTo <= maxValue
    }

    /**
     * Whether a track with the given average speed (none when the track has
     * no analysis) passes. Disabled: every track. Enabled: no track without a
     * speed or with speed zero, no track exactly on a chosen bound, and past
     * an extreme only when that side is left at the extreme.
     */
    function IsTrackAccepted(avgSpeed: Option<real>): (r: bool)
      reads this
      ensures !enabled ==> r
      ensures enabled && (avgSpeed.None? || avgSpeed.value == 0.0) ==> !r
      ensures enabled && avgSpeed.Some? && WellFormed() ==>
                (avgSpeed.value * coef == valueFrom || avgSpeed.value * coef == valueTo ==> !r)
      ensures r && enabled && avgSpeed.Some? && WellFormed() ==>
                (avgSpeed.value * coef < valueFrom ==> valueFrom == minValue) &&
                (avgSpeed.value * coef > valueTo ==> valueTo == maxValue)
      ensures enabled && avgSpeed.Some? && avgSpeed.value != 0.0 && WellFormed() ==>
                var x := avgSpeed.value * coef;
                (r <==> x != valueFrom && x != valueTo &&
                        (valueFrom < x || valueFrom == minValue) &&
                        (x < valueTo || valueTo == maxValue))
    {
      if enabled then
        if avgSpeed.None? || avgSpeed.value == 0.0 then false
        else
          var normalizedValue := avgSpeed.value * coef;
          (normalizedValue > valueFrom && normalizedValue < valueTo)
          || (normalizedValue < minValue && valueFrom == minValue)
          || (normalizedValue > maxValue && valueTo == maxValue)
      else true
    }

    /**
     * With both bounds left at the extremes, the enabled filter still
     * rejects a track whose normalised speed equals an extreme, and accepts
     * every other non-zero speed.
     */
    lemma FullRangeRejectsOnlyExtremes(speed: real)
      requires enabled && WellFormed() && valueFrom == minValue && valueTo == maxValue
      requires speed != 0.0
      ensures IsTrackAccepted(Some(speed)) <==> speed * coef != minValue && speed * coef != maxValue
    {
    }

    /** Re-reads the metric system; only the coefficient changes. */
    method UpdateCoef(mc: MetricsConstants)
      modifies this`coef
      ensures coef == SpeedCoef(mc)
    {
      coef := SpeedCoef(mc);
    }
  }
}
