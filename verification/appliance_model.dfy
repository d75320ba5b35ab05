/** The persisted appliance record (`Appliance`) and its derived energy figures.
    The record's fields are never reassigned after creation, so it is a value here;
    its storage identity is the `PersistentIdentifier` the store hands out. */
module ApplianceModel {
  import opened Wrappers

  /** A point in time, in seconds. */
  type Date = real
  /** Raw bytes, as Foundation's `Data`. */
  type Bytes = seq<bv8>

  /** A `UUID`; the store draws fresh ones from a counter. */
  datatype Uuid = Uuid(value: nat)
  /** The storage handle of a persisted record. */
  datatype PersistentIdentifier = PersistentIdentifier(value: nat)

  /** The record's figures assume round-the-clock use, 30-day months and
      $0.16 per kWh. */
  const HoursPerDay: real := 24.0
  const DaysPerMonth: real := 30.0
  const CostPerKWh: real := 0.16

  /** `dailyKWh`: a wattage drawn for a whole day, in kilowatt-hours. It depends on
      the wattage only, not on any usage-hours figure of the reference table. */
  function DailyKWhFor(estimatedWattage: real): (kwh: real)
    ensures kwh * 1000.0 == estimatedWattage * 24.0
    ensures estimatedWattage >= 0.0 ==> kwh >= 0.0
  {
    (estimatedWattage * HoursPerDay) / 1000.0
  }

  /** `monthlyCost`: thirty such days at $0.16 per kWh, in dollars, which is
      0.1152 dollars per watt. */
  function MonthlyCostFor(estimatedWattage: real): (cost: real)
    ensures cost == DailyKWhFor(estimatedWattage) * 30.0 * 0.16
    ensures cost == estimatedWattage * 0.1152
    ensures estimatedWattage >= 0.0 ==> cost >= 0.0
  {
    var monthlyKWh := DailyKWhFor(estimatedWattage) * DaysPerMonth;
    monthlyKWh * CostPerKWh
  }

  /** An identified appliance. */
  datatype Appliance = Appliance(
    id: Uuid,
    name: string,
    category: string,
    estimatedWattage: real,   // watts
    confidence: real,         // the classifier's score, 0.0 to 1.0
    timestamp: Date,
    imageData: Option<Bytes>) // JPEG bytes of the photo
  {
    /** `dailyKWh`: the wattage over a full day, in kilowatt-hours. */
    function DailyKWh(): (kwh: real)
      ensures kwh * 1000.0 == estimatedWattage * 24.0
      ensures estimatedWattage >= 0.0 ==> kwh >= 0.0
    {
      DailyKWhFor(estimatedWattage)
    }

    /** `monthlyCost`: thirty days of the daily energy at $0.16 per kWh. */
    function MonthlyCost(): (cost: real)
      ensures cost == DailyKWh() * 30.0 * 0.16
      ensures estimatedWattage >= 0.0 ==> cost >= 0.0
    {
      MonthlyCostFor(estimatedWattage)
    }
  }

  /** A record as the store holds it: the model object and its storage handle. */
  datatype PersistedAppliance = PersistedAppliance(
    persistentModelID: PersistentIdentifier,
    model: Appliance)
}
