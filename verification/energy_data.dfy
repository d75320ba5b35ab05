/** The static energy reference table and its fuzzy lookup
    (StaticEnergyDataRepository): an exact, case-insensitive key match first, then
    the first key that is a substring of the name or has the name as a substring,
    with 100 W and "Unknown" as the fallbacks. */
module EnergyData {
  import opened Wrappers
  import opened Text

  /** Energy profile of one kind of appliance. */
  datatype ApplianceEnergyData = ApplianceEnergyData(
    category: string,
    typicalWattage: real,      // watts
    usageHoursPerDay: real)
  {
    /** Daily energy in kilowatt-hours: watts times hours, over 1000. */
    function DailyKWh(): (kwh: real)
      ensures kwh * 1000.0 == typicalWattage * usageHoursPerDay
      ensures typicalWattage >= 0.0 && usageHoursPerDay >= 0.0 ==> kwh >= 0.0
    {
      (typicalWattage * usageHoursPerDay) / 1000.0
    }
  }

  datatype Entry = Entry(key: string, data: ApplianceEnergyData)

  const DefaultWattage: real := 100.0
  const UnknownCategory: string := "Unknown"

  /** The reference table. A Swift dictionary has no defined iteration order; the
      model fixes the order of the declaration, which decides which key the
      substring scan meets first. */
  const EnergyTable: seq<Entry> := [
    // Kitchen
    Entry("refrigerator", ApplianceEnergyData("Kitchen", 150.0, 24.0)),
    Entry("microwave", ApplianceEnergyData("Kitchen", 1200.0, 0.5)),
    Entry("oven", ApplianceEnergyData("Kitchen", 2400.0, 1.0)),
    Entry("dishwasher", ApplianceEnergyData("Kitchen", 1800.0, 1.0)),
    Entry("toaster", ApplianceEnergyData("Kitchen", 1200.0, 0.2)),
    Entry("coffee maker", ApplianceEnergyData("Kitchen", 1000.0, 0.5)),
    // Laundry
    Entry("washer", ApplianceEnergyData("Laundry", 500.0, 1.0)),
    Entry("dryer", ApplianceEnergyData("Laundry", 3000.0, 1.0)),
    Entry("washing machine", ApplianceEnergyData("Laundry", 500.0, 1.0)),
    // Climate control
    Entry("air conditioner", ApplianceEnergyData("Climate", 3500.0, 8.0)),
    Entry("heater", ApplianceEnergyData("Climate", 1500.0, 6.0)),
    Entry("fan", ApplianceEnergyData("Climate", 75.0, 8.0)),
    // Electronics
    Entry("television", ApplianceEnergyData("Electronics", 150.0, 5.0)),
    Entry("computer", ApplianceEnergyData("Electronics", 200.0, 8.0)),
    Entry("monitor", ApplianceEnergyData("Electronics", 50.0, 8.0)),
    Entry("laptop", ApplianceEnergyData("Electronics", 50.0, 8.0)),
    // Lighting
    Entry("lamp", ApplianceEnergyData("Lighting", 60.0, 5.0)),
    // Water heating
    Entry("water heater", ApplianceEnergyData("Water Heating", 4500.0, 3.0))
  ]

  /** No key appears twice, as in a dictionary literal. */
  predicate KeysDistinct(table: seq<Entry>) {
    forall i, j :: 0 <= i < j < |table| ==> table[i].key != table[j].key
  }

  predicate WattagesPositive(table: seq<Entry>) {
    forall i :: 0 <= i < |table| ==> table[i].data.typicalWattage > 0.0
  }

  /** The table has 18 entries with distinct keys and positive wattages. */
  lemma EnergyTableWellFormed()
    ensures |EnergyTable| == 18
    ensures KeysDistinct(EnergyTable)
    ensures WattagesPositive(EnergyTable)
  {
    // split by the first index, to keep each proof obligation small
    KeysDistinctFrom(0, 6);
    KeysDistinctFrom(6, 12);
    KeysDistinctFrom(12, 18);
    WattagesArePositive();
  }

  lemma WattagesArePositive()
    ensures WattagesPositive(EnergyTable)
  {
  }

  /** No profile of the table has the fallback category. */
  lemma CategoriesKnown()
    ensures forall i :: 0 <= i < |EnergyTable| ==> EnergyTable[i].data.category != UnknownCategory
  {
  }

  /** No profile of the table has the fallback wattage. */
  lemma WattagesNotDefault()
    ensures forall i :: 0 <= i < |EnergyTable| ==> EnergyTable[i].data.typicalWattage != DefaultWattage
  {
  }

  lemma KeysDistinctFrom(lo: int, hi: int)
    requires (lo, hi) in {(0, 6), (6, 12), (12, 18)}
    ensures forall i, j :: lo <= i < hi && i < j < |EnergyTable| ==> EnergyTable[i].key != EnergyTable[j].key
  {
  }

  /** The key-value dictionary lookup `energyData[name]`. */
  function ExactMatch(table: seq<Entry>, name: string): (r: Option<ApplianceEnergyData>)
    ensures r.Some? ==> exists i :: 0 <= i < |table| && table[i].key == name && table[i].data == r.value
    ensures r.None? <==> forall i :: 0 <= i < |table| ==> table[i].key != name
    decreases |table|
  {
    if table == [] then None
    else if table[0].key == name then Some(table[0].data)
    else
      var r := ExactMatch(table[1..], name);
      assert forall i :: 1 <= i < |table| ==> table[i] == table[1..][i - 1];
      r
  }

  /** The key and the name are in a substring relation, either way round. */
  predicate Related(key: string, name: string) {
    Contains(name, key) || Contains(key, name)
  }

  /** The scan of the `for (key, data) in energyData` loop: the first related key wins. */
  function SubstringMatch(table: seq<Entry>, name: string): (r: Option<ApplianceEnergyData>)
    ensures r.Some? ==> exists i :: 0 <= i < |table| && Related(table[i].key, name) && table[i].data == r.value
    ensures r.None? <==> forall i :: 0 <= i < |table| ==> !Related(table[i].key, name)
    decreases |table|
  {
    if table == [] then None
    else if Related(table[0].key, name) then Some(table[0].data)
    else
      var r := SubstringMatch(table[1..], name);
      assert forall i :: 1 <= i < |table| ==> table[i] == table[1..][i - 1];
      r
  }

  /** `getEnergyData(for:)`: any answer is the profile of a key equal to, contained
      in or containing the lowercased name. */
  function GetEnergyData(applianceName: string): (r: Option<ApplianceEnergyData>)
    ensures r.Some? ==>
      exists i :: 0 <= i < |EnergyTable| && Related(EnergyTable[i].key, Lowercased(applianceName)) &&
                  EnergyTable[i].data == r.value
  {
    var normalizedName := Lowercased(applianceName);
    ContainsSelf(normalizedName);
    var exact := ExactMatch(EnergyTable, normalizedName);
    if exact.Some? then exact else SubstringMatch(EnergyTable, normalizedName)
  }

  /** An exact key wins: when the lowercased name is a key, that key's profile is the
      answer, whatever other keys it is related to. */
  lemma ExactKeyWins(applianceName: string, i: int)
    requires 0 <= i < |EnergyTable| && EnergyTable[i].key == Lowercased(applianceName)
    ensures GetEnergyData(applianceName) == Some(EnergyTable[i].data)
  {
    EnergyTableWellFormed();
    var n := Lowercased(applianceName);
    var exact := ExactMatch(EnergyTable, n);
    assert exact.Some?;
    var j :| 0 <= j < |EnergyTable| && EnergyTable[j].key == n && EnergyTable[j].data == exact.value;
    assert i == j;
  }

  /** Without an exact key, the answer is the substring scan's, so any answer is the
      profile of a key related to the name. */
  lemma FuzzyAnswerIsRelated(applianceName: string)
    requires forall i :: 0 <= i < |EnergyTable| ==> EnergyTable[i].key != Lowercased(applianceName)
    ensures GetEnergyData(applianceName) == SubstringMatch(EnergyTable, Lowercased(applianceName))
    ensures GetEnergyData(applianceName).Some? ==>
      exists i :: 0 <= i < |EnergyTable| && Related(EnergyTable[i].key, Lowercased(applianceName))
                  && EnergyTable[i].data == GetEnergyData(applianceName).value
  {
  }

  /** The lookup finds nothing exactly when no key is related to the lowercased name
      (an exact key is related to it, since every string contains itself). */
  lemma NoDataIffUnrelated(applianceName: string)
    ensures GetEnergyData(applianceName).None? <==>
      forall i :: 0 <= i < |EnergyTable| ==> !Related(EnergyTable[i].key, Lowercased(applianceName))
  {
    var n := Lowercased(applianceName);
    if ExactMatch(EnergyTable, n).Some? {
      var i :| 0 <= i < |EnergyTable| && EnergyTable[i].key == n;
      ContainsSelf(n);
      assert Related(EnergyTable[i].key, n);
    }
  }

  /** The lookup ignores letter case. */
  lemma LookupIgnoresCase(applianceName: string)
    ensures GetEnergyData(applianceName) == GetEnergyData(Lowercased(applianceName))
  {
    LowercasedIdempotent(applianceName);
  }

  /** `estimateWattage(for:)`: the matched profile's wattage, else 100 W; always
      positive. No profile has 100 W, so that answer means exactly that no key is
      related to the lowercased name. */
  function EstimateWattage(applianceName: string): (w: real)
    ensures GetEnergyData(applianceName).Some? ==> w == GetEnergyData(applianceName).value.typicalWattage
    ensures GetEnergyData(applianceName).None? ==> w == DefaultWattage
    ensures w > 0.0
    ensures w == DefaultWattage <==>
      forall i :: 0 <= i < |EnergyTable| ==> !Related(EnergyTable[i].key, Lowercased(applianceName))
  {
    WattagesArePositive();
    WattagesNotDefault();
    NoDataIffUnrelated(applianceName);
    match GetEnergyData(applianceName)
    case Some(data) => data.typicalWattage
    case None => DefaultWattage
  }

  /** `getCategory(for:)`: the matched profile's category, else "Unknown". No
      profile's category is "Unknown", so that answer means exactly that no key is
      related to the lowercased name. */
  function GetCategory(applianceName: string): (c: string)
    ensures GetEnergyData(applianceName).Some? ==> c == GetEnergyData(applianceName).value.category
    ensures GetEnergyData(applianceName).None? ==> c == UnknownCategory
    ensures c == UnknownCategory <==>
      forall i :: 0 <= i < |EnergyTable| ==> !Related(EnergyTable[i].key, Lowercased(applianceName))
  {
    CategoriesKnown();
    NoDataIffUnrelated(applianceName);
    match GetEnergyData(applianceName)
    case Some(data) => data.category
    case None => UnknownCategory
  }

  /** Every known key, in any letter case, gets its own wattage and category. */
  lemma KnownKeyAnswers(applianceName: string, i: int)
    requires 0 <= i < |EnergyTable| && EnergyTable[i].key == Lowercased(applianceName)
    ensures EstimateWattage(applianceName) == EnergyTable[i].data.typicalWattage
    ensures GetCategory(applianceName) == EnergyTable[i].data.category
  {
    ExactKeyWins(applianceName, i);
  }

  /** Names that are no key and in no substring relation with one get the fallbacks. */
  lemma UnrelatedNameFallsBack(applianceName: string)
    requires forall i :: 0 <= i < |EnergyTable| ==> !Related(EnergyTable[i].key, Lowercased(applianceName))
    ensures EstimateWattage(applianceName) == DefaultWattage
    ensures GetCategory(applianceName) == UnknownCategory
  {
    NoDataIffUnrelated(applianceName);
  }

  /** The letters the keys are told apart by: only "coffee maker" has a 'k', and it
      has no 'u'; every key has an 'e', an 'a' or an 'm'. */
  predicate KeyLetters(i: int)
    requires 0 <= i < |EnergyTable|
  {
    var key := EnergyTable[i].key;
    (if i == 5 then 'u' !in key else 'k' !in key) && ('e' in key || 'a' in key || 'm' in key)
  }

  lemma KeyLettersFrom0To3()
    ensures forall i :: 0 <= i < 3 ==> KeyLetters(i)
  {
  }

  lemma KeyLettersFrom3To6()
    ensures forall i :: 3 <= i < 6 ==> KeyLetters(i)
  {
  }

  lemma KeyLettersFrom6To9()
    ensures forall i :: 6 <= i < 9 ==> KeyLetters(i)
  {
  }

  lemma KeyLettersFrom9To12()
    ensures forall i :: 9 <= i < 12 ==> KeyLetters(i)
  {
  }

  lemma KeyLettersFrom12To15()
    ensures forall i :: 12 <= i < 15 ==> KeyLetters(i)
  {
  }

  lemma KeyLettersFrom15To18()
    ensures forall i :: 15 <= i < 18 ==> KeyLetters(i)
  {
  }

  /** A lowercased name with a 'k' and a 'u' but no 'e', 'a' or 'm' is related to
      no key. */
  lemma UnrelatedByLetters(n: string)
    requires 'k' in n && 'u' in n && 'e' !in n && 'a' !in n && 'm' !in n
    ensures forall i :: 0 <= i < |EnergyTable| ==> !Related(EnergyTable[i].key, n)
  {
    KeyLettersFrom0To3();
    KeyLettersFrom3To6();
    KeyLettersFrom6To9();
    KeyLettersFrom9To12();
    KeyLettersFrom12To15();
    KeyLettersFrom15To18();
    forall i | 0 <= i < |EnergyTable| ensures !Related(EnergyTable[i].key, n) {
      var key := EnergyTable[i].key;
      assert KeyLetters(i);
      if i == 5 {
        MissingCharNotContained(key, n, 'u');
      } else {
        MissingCharNotContained(key, n, 'k');
      }
      if 'e' in key {
        MissingCharNotContained(n, key, 'e');
      } else if 'a' in key {
        MissingCharNotContained(n, key, 'a');
      } else {
        MissingCharNotContained(n, key, 'm');
      }
    }
  }

  // The lookups of the repository's unit test.

  /** "microwave" is a key: 1200 W. */
  lemma ExampleMicrowave()
    ensures EstimateWattage("microwave") == 1200.0
    ensures GetCategory("microwave") == "Kitchen"
  {
    assert Lowercased("microwave") == "microwave";
    KnownKeyAnswers("microwave", 1);
  }

  /** "Washing Machine" matches the key "washing machine" whatever its case: 500 W. */
  lemma ExampleWashingMachine()
    ensures EstimateWattage("Washing Machine") == 500.0
    ensures GetCategory("Washing Machine") == "Laundry"
  {
    assert Lowercased("Washing Machine") == "washing machine";
    KnownKeyAnswers("Washing Machine", 8);
  }

  /** The lowercase key "washing machine" itself: 500 W, Laundry. */
  lemma ExampleWashingMachineKey()
    ensures EstimateWattage("washing machine") == 500.0
    ensures GetCategory("washing machine") == "Laundry"
  {
    LowercasedIdempotent("washing machine");
    KnownKeyAnswers("washing machine", 8);
  }

  /** "heater" is a key, so it gets 1500 W although "water heater" (4500 W) contains it. */
  lemma ExampleHeater()
    ensures EstimateWattage("heater") == 1500.0
    ensures GetCategory("heater") == "Climate"
  {
    LowercasedIdempotent("heater");
    KnownKeyAnswers("heater", 10);
  }

  /** "UnknownThing" matches nothing: 100 W, "Unknown". */
  lemma ExampleUnknownThing()
    ensures EstimateWattage("UnknownThing") == DefaultWattage
    ensures GetCategory("UnknownThing") == UnknownCategory
  {
    var n := Lowercased("UnknownThing");
    assert n == "unknownthing";
    UnrelatedByLetters(n);
    UnrelatedNameFallsBack("UnknownThing");
  }
}
