/** `CameraViewModel`: classifies a photo, saves the draft and reports either the
    saved record or an error. */
module CameraViewModels {
  import opened Wrappers
  import opened ApplianceDto
  import opened ClassifyUseCase
  import opened Repository
  import opened ViewModelErrors

  class CameraViewModel {
    /** The classification is in progress. */
    var isProcessing: bool
    /** The error shown to the user, if any. */
    var errorMessage: Option<ErrorMessage>
    /** The most recently classified and saved appliance. */
    var classifiedAppliance: Option<ApplianceDTO>

    constructor ()
      ensures !isProcessing && errorMessage == None && classifiedAppliance == None
    {
      isProcessing := false;
      errorMessage := None;
      classifiedAppliance := None;
    }

    /** `classifyAndSave(image:)`. The view model knows the classification use case
        only through its protocol, so `classified` is that call's outcome (with the
        app's use case it is `ClassifyAppliance` of the classifier's outcome and the
        static table's lookups);
        `commitOk` says whether the store's save succeeds. A classification failure is
        shown and nothing is saved; a save failure is shown and the store is as it
        was; otherwise the saved snapshot of the draft is shown. Afterwards exactly
        one of the result and the error is set, and processing is over. */
    method ClassifyAndSave(classified: Result<ApplianceCreationData, MLModelError>,
                           store: ApplianceStore, commitOk: bool)
      requires store.Valid()
      modifies this, store
      ensures store.Valid()
      ensures !isProcessing
      ensures classifiedAppliance.Some? <==> errorMessage.None?
      ensures classified.Failure? ==>
        errorMessage == Some(ErrorMessage(ClassifyFailed, ClassificationError(classified.error))) &&
        unchanged(store)
      ensures classified.Success? && !commitOk ==>
        errorMessage == Some(ErrorMessage(ClassifyFailed, StoreFailure(StorageFailure))) &&
        unchanged(store)
      ensures classified.Success? && commitOk ==>
        classifiedAppliance.Some? && SnapshotOf(classifiedAppliance.value, classified.value) &&
        store.models == old(store.models) + [Record(classifiedAppliance.value)]
    {
      isProcessing := true;
      errorMessage := None;
      classifiedAppliance := None;

      var creationData := classified;
      if creationData.Failure? {
        errorMessage := Some(ErrorMessage(ClassifyFailed, ClassificationError(creationData.error)));
      } else {
        var savedAppliance := store.SaveAppliance(creationData.value, commitOk);
        if savedAppliance.Failure? {
          errorMessage := Some(ErrorMessage(ClassifyFailed, StoreFailure(savedAppliance.error)));
        } else {
          classifiedAppliance := Some(savedAppliance.value);
        }
      }

      isProcessing := false;
    }

    /** `reset()`: clears the result and the error for a new capture. */
    method Reset()
      modifies this
      ensures classifiedAppliance == None && errorMessage == None
      ensures isProcessing == old(isProcessing)
    {
      classifiedAppliance := None;
      errorMessage := None;
    }
  }
}
