/**
 Classification of a battery temperature against the band that the installed
 cooling arrangement allows: the range table, the breach predicate and their
 composition. Everything here is pure; the sinks that report a breach live in
 module Alerting.
 */
module BreachClassification {

  /** The cooling arrangement of a battery pack. The declaration order is the
      order of the rows of the range table (PASSIVE, HI_ACTIVE, MED_ACTIVE). */
  datatype CoolingType = PassiveCooling | HiActiveCooling | MedActiveCooling
  {
    /** The enumerator's integer value, used to index the range table. */
    function Ordinal(): (n: nat)
      ensures n < |RangeTable()|
    {
      match this
      case PassiveCooling => 0
      case HiActiveCooling => 1
      case MedActiveCooling => 2
    }
  }

  /** A band of permitted temperatures in degrees Celsius; both limits belong
      to the band. */
  datatype TemperatureRange = TemperatureRange(lowerLimit: real, upperLimit: real)

  /** The lower limit does not exceed the upper one. */
  predicate WellFormed(range: TemperatureRange)
  {
    range.lowerLimit <= range.upperLimit
  }

  /** The outcome of a classification. Code() is the number the controller
      wire format carries: NORMAL = 0, TOO_LOW = 1, TOO_HIGH = 2. */
  datatype BreachType = Normal | TooLow | TooHigh
  {
    function Code(): (n: nat)
      ensures n < 3
    {
      match this
      case Normal => 0
      case TooLow => 1
      case TooHigh => 2
    }
  }

  /** The local array of getTemperatureRange, one band per cooling type. */
  function RangeTable(): seq<TemperatureRange>
  {
    [TemperatureRange(0.0, 35.0), TemperatureRange(0.0, 45.0), TemperatureRange(0.0, 40.0)]
  }

  /** getTemperatureRange: the band of a cooling type, read from the table at
      the cooling type's ordinal. Every band starts at 0 degrees and is well
      formed; the upper limits are 35, 45 and 40 degrees. */
  function GetTemperatureRange(coolingType: CoolingType): (range: TemperatureRange)
    ensures WellFormed(range)
    ensures range.lowerLimit == 0.0
    ensures coolingType == PassiveCooling ==> range.upperLimit == 35.0
    ensures coolingType == HiActiveCooling ==> range.upperLimit == 45.0
    ensures coolingType == MedActiveCooling ==> range.upperLimit == 40.0
  {
    RangeTable()[coolingType.Ordinal()]
  }

  /** inferBreach: strict comparisons, the lower limit tested first. A reading
      below the band is TOO_LOW whatever the band; for a well-formed band the
      result is TOO_HIGH exactly above the band and NORMAL exactly inside it,
      both limits included. */
  function InferBreach(value: real, range: TemperatureRange): (breach: BreachType)
    ensures breach == TooLow <==> value < range.lowerLimit
    ensures breach == TooHigh <==> range.lowerLimit <= value && range.upperLimit < value
    ensures WellFormed(range) ==> (breach == TooHigh <==> range.upperLimit < value)
    ensures breach == Normal <==> range.lowerLimit <= value <= range.upperLimit
  {
    if value < range.lowerLimit then TooLow
    else if value > range.upperLimit then TooHigh
    else Normal
  }

  /** A reading equal to either limit of a well-formed band is NORMAL. */
  lemma BoundariesAreNormal(range: TemperatureRange)
    requires WellFormed(range)
    ensures InferBreach(range.lowerLimit, range) == Normal
    ensures InferBreach(range.upperLimit, range) == Normal
  {
  }

  /** On a band whose limits are crossed (lower above upper) no reading is
      NORMAL, and a reading between the two limits is TOO_LOW: the lower test
      wins because it comes first. */
  lemma CrossedBandPrefersTooLow(value: real, range: TemperatureRange)
    requires !WellFormed(range)
    ensures InferBreach(value, range) != Normal
    ensures range.upperLimit < value < range.lowerLimit ==> InferBreach(value, range) == TooLow
  {
  }

  /** classifyTemperatureBreach: the breach of a reading against the band of
      the cooling type. Below 0 degrees is TOO_LOW; above the cooling type's
      upper limit is TOO_HIGH; anything in between, both limits included, is
      NORMAL. */
  function ClassifyTemperatureBreach(coolingType: CoolingType, temperatureInC: real): (breach: BreachType)
    ensures breach == TooLow <==> temperatureInC < 0.0
    ensures breach == TooHigh <==> GetTemperatureRange(coolingType).upperLimit < temperatureInC
    ensures breach == Normal <==> 0.0 <= temperatureInC <= GetTemperatureRange(coolingType).upperLimit
  {
    var range := GetTemperatureRange(coolingType);
    InferBreach(temperatureInC, range)
  }

  /** The readings that the three cooling types classify differently: a
      reading above 35 and up to 40 degrees is a breach only for passive
      cooling, one above 40 and up to 45 degrees is not a breach for high
      active cooling. */
  lemma ClassificationPerCoolingType(temperatureInC: real)
    ensures ClassifyTemperatureBreach(PassiveCooling, temperatureInC) == Normal
            <==> 0.0 <= temperatureInC <= 35.0
    ensures ClassifyTemperatureBreach(MedActiveCooling, temperatureInC) == Normal
            <==> 0.0 <= temperatureInC <= 40.0
    ensures ClassifyTemperatureBreach(HiActiveCooling, temperatureInC) == Normal
            <==> 0.0 <= temperatureInC <= 45.0
  {
  }
}
