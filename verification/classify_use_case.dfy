/** `ClassifyApplianceUseCase`: turns the classifier's label into a readable name
    and enriches it with the reference table's wattage and category. The Vision
    call and the JPEG encoding are outside the model: their outcomes are inputs. */
module ClassifyUseCase {
  import opened Wrappers
  import opened Text
  import opened EnergyData
  import opened ApplianceModel
  import opened ApplianceDto

  /** What the classifier reports: a label and a score from 0.0 to 1.0. */
  datatype ClassificationResult = ClassificationResult(identifier: string, confidence: real)

  /** Why the classifier gave no result. */
  datatype MLModelError = ModelNotLoaded | NoResults

  /** `cleanApplianceName`: a label such as "n04554684 washing_machine" loses its
      first space-separated token, and underscores become spaces. A label without a
      space only has its underscores replaced. The result never holds an underscore. */
  function CleanApplianceName(identifier: string): (name: string)
    ensures '_' !in name
  {
    var components := Split(identifier, ' ');
    if |components| > 1 then
      ReplaceAll(Join(components[1..], ' '), '_', ' ')
    else
      ReplaceAll(identifier, '_', ' ')
  }

  /** A label with a space: the name is the text after the first space, with
      underscores replaced. */
  lemma CleanTakesTextAfterFirstSpace(pre: string, post: string)
    requires ' ' !in pre
    ensures CleanApplianceName(pre + [' '] + post) == ReplaceAll(post, '_', ' ')
  {
    var components := Split(pre + [' '] + post, ' ');
    SplitAtFirst(pre, ' ', post);
    assert components[1..] == Split(post, ' ');
    JoinSplit(post, ' ');
    SplitCount(pre + [' '] + post, ' ');
  }

  /** A label without a space: only the underscores change, so the length is kept. */
  lemma CleanWithoutSpace(identifier: string)
    requires ' ' !in identifier
    ensures CleanApplianceName(identifier) == ReplaceAll(identifier, '_', ' ')
    ensures |CleanApplianceName(identifier)| == |identifier|
  {
    SplitNoSeparator(identifier, ' ');
  }

  /** The label of the repository's unit test. */
  lemma CleanExample()
    ensures CleanApplianceName("n01234567 washing_machine") == "washing machine"
  {
    assert "n01234567 washing_machine" == "n01234567" + [' '] + "washing_machine";
    CleanTakesTextAfterFirstSpace("n01234567", "washing_machine");
    assert ReplaceAll("washing_machine", '_', ' ') == "washing machine";
  }

  /** `classifyAppliance`: a classifier failure propagates; otherwise the draft
      carries the cleaned name, the injected energy lookup's wattage and category
      for that name (not for the raw label), the classifier's confidence unchanged,
      the photo bytes and the time of identification. The name never holds an
      underscore, and the confidence is in [0, 1] whenever the classifier's is.
      `estimateWattage` and `getCategory` are the two lookups of the injected
      `EnergyDataRepository`. */
  function ClassifyAppliance(classification: Result<ClassificationResult, MLModelError>,
                             estimateWattage: string -> real, getCategory: string -> string,
                             timestamp: Date, imageData: Option<Bytes>)
    : (r: Result<ApplianceCreationData, MLModelError>)
    ensures classification.Failure? <==> r.Failure?
    ensures classification.Failure? ==> r.error == classification.error
    ensures classification.Success? ==>
      var name := CleanApplianceName(classification.value.identifier);
      r.value.name == name &&
      r.value.estimatedWattage == estimateWattage(name) &&
      r.value.category == getCategory(name) &&
      r.value.confidence == classification.value.confidence &&
      r.value.timestamp == timestamp && r.value.imageData == imageData
    ensures r.Success? ==> '_' !in r.value.name
    ensures r.Success? && 0.0 <= classification.value.confidence <= 1.0 ==>
      0.0 <= r.value.confidence <= 1.0
  {
    match classification
    case Failure(e) => Failure(e)
    case Success(result) =>
      var applianceName := CleanApplianceName(result.identifier);
      var estimatedWattage := estimateWattage(applianceName);
      var category := getCategory(applianceName);
      Success(ApplianceCreationData(applianceName, category, estimatedWattage,
                                    result.confidence, timestamp, imageData))
  }

  /** Wired to the static reference table, as the app does, every draft has a
      positive wattage, and its category is "Unknown" exactly when no key of the
      table is related to its cleaned name. */
  lemma ClassifyWithStaticTable(classification: Result<ClassificationResult, MLModelError>,
                                timestamp: Date, imageData: Option<Bytes>)
    ensures var r := ClassifyAppliance(classification, EstimateWattage, GetCategory, timestamp, imageData);
      r.Success? ==> r.value.estimatedWattage > 0.0 &&
                     (r.value.category == UnknownCategory <==>
                        forall i :: 0 <= i < |EnergyTable| ==> !Related(EnergyTable[i].key, Lowercased(r.value.name)))
  {
  }

  /** The unit test's classification with its stub lookup (501 W, "Laundry"):
      "washing machine", Laundry, 501 W, confidence 0.88. */
  lemma ClassifyExample(timestamp: Date, imageData: Option<Bytes>)
    ensures var r := ClassifyAppliance(Success(ClassificationResult("n01234567 washing_machine", 0.88)),
                                       _ => 501.0, _ => "Laundry", timestamp, imageData);
      r.Success? && r.value.name == "washing machine" && r.value.category == "Laundry" &&
      r.value.estimatedWattage == 501.0 && r.value.confidence == 0.88
  {
    CleanExample();
  }

  /** The same classification against the static table: "washing machine",
      Laundry, 500 W. */
  lemma ClassifyExampleStaticTable(timestamp: Date, imageData: Option<Bytes>)
    ensures var r := ClassifyAppliance(Success(ClassificationResult("n01234567 washing_machine", 0.88)),
                                       EstimateWattage, GetCategory, timestamp, imageData);
      r.Success? && r.value.name == "washing machine" && r.value.category == "Laundry" &&
      r.value.estimatedWattage == 500.0 && r.value.confidence == 0.88
  {
    CleanExample();
    ExampleWashingMachineKey();
  }
}
