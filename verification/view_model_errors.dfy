/** The errors the view models display. The source shows a context sentence
    followed by the error's `localizedDescription`; the model keeps the context
    and the error itself instead of the rendered text. */
module ViewModelErrors {
  import opened ClassifyUseCase
  import opened Repository

  /** The failure a view model caught: the classifier's or the store's. */
  datatype AppError = ClassificationError(mlError: MLModelError) | StoreFailure(storeError: StoreError)

  /** `"<context>: <cause>"` as shown to the user. */
  datatype ErrorMessage = ErrorMessage(context: string, cause: AppError)

  const ClassifyFailed: string := "Failed to classify appliance"
  const LoadFailed: string := "Failed to load appliances"
  const DeleteFailed: string := "Failed to delete appliance"
}
