/** The value types that carry appliance data across boundaries: the draft of a
    record to be created (`ApplianceCreationData`) and the snapshot of a stored
    record (`ApplianceDTO`). */
module ApplianceDto {
  import opened Wrappers
  import opened ApplianceModel

  /** The draft handed to the store. The photo defaults to none; the time of
      identification has no default here, since reading the clock is left to the
      caller. */
  datatype ApplianceCreationData = ApplianceCreationData(
    name: string,
    category: string,
    estimatedWattage: real,
    confidence: real,
    timestamp: Date,
    imageData: Option<Bytes> := None)

  /** The snapshot of a stored record. */
  datatype ApplianceDTO = ApplianceDTO(
    id: Uuid,
    persistentID: PersistentIdentifier,
    name: string,
    category: string,
    estimatedWattage: real,
    confidence: real,
    timestamp: Date,
    imageData: Option<Bytes>)
  {
    /** `dailyKWh`: W * 24 / 1000. */
    function DailyKWh(): (kwh: real)
      ensures kwh == estimatedWattage * 24.0 / 1000.0
      ensures estimatedWattage >= 0.0 ==> kwh >= 0.0
    {
      DailyKWhFor(estimatedWattage)
    }

    /** `monthlyCost`: `dailyKWh` * 30 * 0.16, that is W * 0.1152. */
    function MonthlyCost(): (cost: real)
      ensures cost == DailyKWh() * 30.0 * 0.16
      ensures cost == estimatedWattage * 0.1152
    {
      MonthlyCostFor(estimatedWattage)
    }

    /** `ApplianceDTO.from`: the snapshot copies every field of the record and its
        handle, so it reports the same energy figures. */
    static function From(p: PersistedAppliance): (d: ApplianceDTO)
      ensures d.id == p.model.id && d.persistentID == p.persistentModelID
      ensures d.name == p.model.name && d.category == p.model.category
      ensures d.estimatedWattage == p.model.estimatedWattage && d.confidence == p.model.confidence
      ensures d.timestamp == p.model.timestamp && d.imageData == p.model.imageData
      ensures d.DailyKWh() == p.model.DailyKWh() && d.MonthlyCost() == p.model.MonthlyCost()
    {
      ApplianceDTO(p.model.id, p.persistentModelID, p.model.name, p.model.category,
                   p.model.estimatedWattage, p.model.confidence, p.model.timestamp,
                   p.model.imageData)
    }
  }

  /** The record a snapshot was taken of. */
  function Record(d: ApplianceDTO): PersistedAppliance {
    PersistedAppliance(d.persistentID,
      Appliance(d.id, d.name, d.category, d.estimatedWattage, d.confidence, d.timestamp, d.imageData))
  }

  /** Nothing is lost in a snapshot: the record can be rebuilt from it, so distinct
      records have distinct snapshots. */
  lemma SnapshotRoundTrip(p: PersistedAppliance, q: PersistedAppliance)
    ensures Record(ApplianceDTO.From(p)) == p
    ensures ApplianceDTO.From(p) == ApplianceDTO.From(q) ==> p == q
  {
  }

  /** A snapshot is the snapshot of the record rebuilt from it. */
  lemma RecordRoundTrip(d: ApplianceDTO)
    ensures ApplianceDTO.From(Record(d)) == d
  {
  }

  /** The draft keeps every argument as given, and the photo is absent when omitted. */
  lemma CreationDataDefaults(name: string, category: string, estimatedWattage: real,
                             confidence: real, timestamp: Date)
    ensures var c := ApplianceCreationData(name, category, estimatedWattage, confidence, timestamp);
      c.name == name && c.category == category && c.estimatedWattage == estimatedWattage &&
      c.confidence == confidence && c.timestamp == timestamp && c.imageData == None
  {
  }
}
