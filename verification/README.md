# Appliance identifier: a Dafny model of its core

The app photographs a household appliance, classifies the photo with an image
classifier, turns the classifier's label into a readable name, looks that name up
in a static table of typical wattages, and stores the result so that it can be
listed and deleted later. This project models the deterministic part of that path
and proves properties of it:

- `Text` (`text.dfy`) holds the Foundation string operations the app relies on:
  `lowercased()`, `contains(_:)`, `components(separatedBy:)`,
  `joined(separator:)` and `replacingOccurrences(of:with:)`.
- `EnergyData` (`energy_data.dfy`) is the static energy reference
  (`StaticEnergyDataRepository`): the 18-entry table, the case-insensitive exact
  lookup, the substring fallback scan, and the 100 W / `"Unknown"` fallbacks.
- `ApplianceModel` (`appliance_model.dfy`) is the stored `Appliance` record and
  its daily-energy and monthly-cost figures.
- `ApplianceDto` (`appliance_dto.dfy`) holds the draft `ApplianceCreationData`,
  the snapshot `ApplianceDTO`, and `ApplianceDTO.from`.
- `ClassifyUseCase` (`classify_use_case.dfy`) is label cleaning and enrichment
  (`ClassifyApplianceUseCase`).
- `Repository` (`appliance_repository.dfy`) is `SwiftDataApplianceRepository`,
  modelled as the class `ApplianceStore`. It holds the records in insertion
  order, plus counters for fresh storage handles and fresh UUIDs. Its listing is
  newest first.
- `CameraViewModels` and `ApplianceListViewModels`
  (`camera_view_model.dfy`, `appliance_list_view_model.dfy`) are the two view
  models as classes whose methods update their fields step by step.
  `ViewModelErrors` holds the errors they display.
- `Wrappers` holds `Option`, `Result` and `Outcome`, for Swift optionals and
  throwing calls.

Some results are supplied from outside the model and are passed in as
parameters:

- the classifier's result or error;
- the energy lookups injected into the classification use case (`estimateWattage` and `getCategory` of its `EnergyDataRepository`); the app injects the static table, the unit test a stub;
- in the camera view model, the classification use case's result or error (the view model holds only the use case's protocol; in the app that result is `ClassifyAppliance` of the classifier's outcome and the static table's lookups);
- the clock reading;
- the JPEG bytes of the photo;
- whether the store's `save()` and `fetch` succeed.

Numbers are Dafny `real`s, so the energy and cost formulas are exact identities.

## Model

| member | source | states |
|---|---|---|
| Text.LowercasedIdempotent | applianceIdentifier/Data/Repositories/EnergyDataRepository.swift:85 | lowercasing leaves no upper-case letter, leaves a lower-case string alone, and lowercasing twice equals lowercasing once |
| Text.ContainsIff | applianceIdentifier/Data/Repositories/EnergyDataRepository.swift:92 | `contains` holds exactly when the needle occurs at some position of the string |
| Text.ContainsSelf | applianceIdentifier/Data/Repositories/EnergyDataRepository.swift:92 | every string contains itself, so an exactly matching key is also a related key |
| Text.MissingCharNotContained | applianceIdentifier/Data/Repositories/EnergyDataRepository.swift:92 | a needle holding a character the string lacks is not contained in it |
| Text.Split | applianceIdentifier/Domain/UseCases/ClassifyApplianceUseCase.swift:57 | splitting on a separator always yields at least one component |
| Text.JoinSplit | applianceIdentifier/Domain/UseCases/ClassifyApplianceUseCase.swift:57-59 | joining the components with the separator gives back the original string |
| Text.SplitNoSeparator | applianceIdentifier/Domain/UseCases/ClassifyApplianceUseCase.swift:57-61 | a string without the separator splits into one component, the string itself |
| Text.SplitAtFirst | applianceIdentifier/Domain/UseCases/ClassifyApplianceUseCase.swift:57-59 | the first component is the text before the first separator; the remaining components are the split of the text after it |
| Text.SplitCount | applianceIdentifier/Domain/UseCases/ClassifyApplianceUseCase.swift:57-58 | there is more than one component exactly when the separator occurs |
| Text.ReplaceAll | applianceIdentifier/Domain/UseCases/ClassifyApplianceUseCase.swift:59-61 | the length is kept; no replaced character remains; every other character comes from the input |
| EnergyData.ApplianceEnergyData.DailyKWh | applianceIdentifier/Data/Repositories/EnergyDataRepository.swift:22-24 | daily kWh times 1000 equals wattage times hours per day; it is non-negative for non-negative inputs |
| EnergyData.EnergyTableWellFormed | applianceIdentifier/Data/Repositories/EnergyDataRepository.swift:50-80 | the table has 18 entries, no key twice, and every wattage positive |
| EnergyData.CategoriesKnown | applianceIdentifier/Data/Repositories/EnergyDataRepository.swift:50-80 | no profile of the table has the fallback category `"Unknown"` |
| EnergyData.WattagesNotDefault | applianceIdentifier/Data/Repositories/EnergyDataRepository.swift:50-80 | no profile of the table has the fallback wattage of 100 W |
| EnergyData.ExactMatch | applianceIdentifier/Data/Repositories/EnergyDataRepository.swift:87-89 | the dictionary subscript answers the profile of a key equal to the name, and answers nothing exactly when no key equals it |
| EnergyData.SubstringMatch | applianceIdentifier/Data/Repositories/EnergyDataRepository.swift:91-95 | the scan answers the profile of a key that contains the name or is contained in it, and answers nothing exactly when no key is so related |
| EnergyData.GetEnergyData | applianceIdentifier/Data/Repositories/EnergyDataRepository.swift:84-98 | any answer is the profile of a table key equal to, contained in, or containing the lowercased name |
| EnergyData.ExactKeyWins | applianceIdentifier/Data/Repositories/EnergyDataRepository.swift:85-89 | when the lowercased name is a key, that key's profile is the answer, whatever other keys relate to it |
| EnergyData.FuzzyAnswerIsRelated | applianceIdentifier/Data/Repositories/EnergyDataRepository.swift:87-95 | without an exact key, the answer is the substring scan's, so any answer is the profile of a key in a substring relation with the lowercased name |
| EnergyData.NoDataIffUnrelated | applianceIdentifier/Data/Repositories/EnergyDataRepository.swift:84-98 | the lookup answers nothing exactly when no key is equal to, contained in, or contains the lowercased name |
| EnergyData.LookupIgnoresCase | applianceIdentifier/Data/Repositories/EnergyDataRepository.swift:85 | looking up a name and looking up its lowercase form give the same answer |
| EnergyData.EstimateWattage | applianceIdentifier/Data/Repositories/EnergyDataRepository.swift:101-103 | the matched profile's wattage, or exactly 100 W when nothing matches; always positive; the answer is 100 W exactly when no key is related to the lowercased name |
| EnergyData.GetCategory | applianceIdentifier/Data/Repositories/EnergyDataRepository.swift:106-108 | the matched profile's category, or `"Unknown"` when nothing matches; the answer is `"Unknown"` exactly when no key is related to the lowercased name |
| EnergyData.KnownKeyAnswers | applianceIdentifier/Data/Repositories/EnergyDataRepository.swift:84-108 | a key in any letter case gets that key's own wattage and category |
| EnergyData.UnrelatedNameFallsBack | applianceIdentifier/Data/Repositories/EnergyDataRepository.swift:91-108 | a name related to no key gets 100 W and `"Unknown"` |
| EnergyData.UnrelatedByLetters | applianceIdentifier/Data/Repositories/EnergyDataRepository.swift:91-95 | a lowercased name holding a `k` and a `u` but no `e`, `a` or `m` is in no substring relation with any key of the table |
| EnergyData.ExampleMicrowave | applianceIdentifierTests/ApplianceIdentifierTests.swift:251-252 | `"microwave"` gets 1200 W, Kitchen |
| EnergyData.ExampleWashingMachine | applianceIdentifierTests/ApplianceIdentifierTests.swift:253-254 | `"Washing Machine"` gets 500 W, Laundry |
| EnergyData.ExampleWashingMachineKey | applianceIdentifier/Data/Repositories/EnergyDataRepository.swift:62 | `"washing machine"` gets 500 W, Laundry |
| EnergyData.ExampleHeater | applianceIdentifier/Data/Repositories/EnergyDataRepository.swift:66 | `"heater"` gets its own 1500 W, Climate, although the key `"water heater"` contains it |
| EnergyData.ExampleUnknownThing | applianceIdentifierTests/ApplianceIdentifierTests.swift:255-258 | `"UnknownThing"` gets the fallbacks, 100 W and `"Unknown"` |
| ApplianceModel.DailyKWhFor | applianceIdentifier/Domain/Models/Appliance.swift:57-59 | daily kWh times 1000 is the wattage times 24, whatever the table's usage hours; it is non-negative for a non-negative wattage |
| ApplianceModel.MonthlyCostFor | applianceIdentifier/Domain/Models/Appliance.swift:63-66 | monthly cost is daily kWh times 30 times 0.16, that is wattage times 0.1152; it is non-negative for a non-negative wattage |
| ApplianceModel.Appliance.DailyKWh | applianceIdentifier/Domain/Models/Appliance.swift:57-59 | a record's daily kWh times 1000 is its wattage times 24; non-negative for a non-negative wattage |
| ApplianceModel.Appliance.MonthlyCost | applianceIdentifier/Domain/Models/Appliance.swift:63-66 | a record's monthly cost is thirty days of its daily energy at $0.16/kWh; non-negative for a non-negative wattage |
| ApplianceDto.ApplianceDTO.From | applianceIdentifier/Domain/Models/ApplianceDTO.swift:100-109 | the snapshot copies the UUID, the handle and every field of the record, so its daily kWh and monthly cost equal the record's |
| ApplianceDto.SnapshotRoundTrip | applianceIdentifier/Domain/Models/ApplianceDTO.swift:100-109 | the record can be rebuilt from its snapshot, so distinct records have distinct snapshots |
| ApplianceDto.RecordRoundTrip | applianceIdentifier/Domain/Models/ApplianceDTO.swift:100-109 | a snapshot is the snapshot of the record rebuilt from it |
| ApplianceDto.CreationDataDefaults | applianceIdentifier/Domain/Models/ApplianceDTO.swift:37-51 | the draft keeps every argument as given, and the photo is absent when omitted |
| ApplianceDto.ApplianceDTO.DailyKWh | applianceIdentifier/Domain/Models/ApplianceDTO.swift:83-85 | a snapshot's daily kWh is W*24/1000, non-negative for a non-negative wattage |
| ApplianceDto.ApplianceDTO.MonthlyCost | applianceIdentifier/Domain/Models/ApplianceDTO.swift:89-92 | a snapshot's monthly cost is daily kWh*30*0.16, which is W*0.1152 |
| ClassifyUseCase.CleanApplianceName | applianceIdentifier/Domain/UseCases/ClassifyApplianceUseCase.swift:56-62 | the cleaned name never contains an underscore |
| ClassifyUseCase.CleanTakesTextAfterFirstSpace | applianceIdentifier/Domain/UseCases/ClassifyApplianceUseCase.swift:57-59 | for a label with a space, the name is the text after the first space with underscores turned into spaces |
| ClassifyUseCase.CleanWithoutSpace | applianceIdentifier/Domain/UseCases/ClassifyApplianceUseCase.swift:61 | for a label without a space, only underscores change, and the length is kept |
| ClassifyUseCase.CleanExample | applianceIdentifierTests/ApplianceIdentifierTests.swift:292-305 | `"n01234567 washing_machine"` becomes `"washing machine"` |
| ClassifyUseCase.ClassifyAppliance | applianceIdentifier/Domain/UseCases/ClassifyApplianceUseCase.swift:26-52 | a classifier failure propagates with no draft. Otherwise the draft has the cleaned name; the injected lookup's wattage and category for that name, not for the raw label; the classifier's confidence unchanged; the photo; and the time. The name has no underscore, and the confidence is in [0, 1] when the classifier's is |
| ClassifyUseCase.ClassifyWithStaticTable | applianceIdentifier/Data/DataFactory.swift:33-34 | with the static table injected, as the app wires it, the wattage is positive and the category is `"Unknown"` exactly when no key is related to the cleaned name |
| ClassifyUseCase.ClassifyExample | applianceIdentifierTests/ApplianceIdentifierTests.swift:264-305 | the test's classification with its stub lookup gives `"washing machine"`, Laundry, 501 W, and confidence 0.88 |
| ClassifyUseCase.ClassifyExampleStaticTable | applianceIdentifier/Data/Repositories/EnergyDataRepository.swift:62 | the test's label against the static table gives `"washing machine"`, Laundry, 500 W, and confidence 0.88 |
| Repository.InsertNewestFirst | applianceIdentifier/Data/Repositories/ApplianceRepository.swift:34-37 | inserting adds exactly the one snapshot to the listing's contents |
| Repository.InsertKeepsOrder | applianceIdentifier/Data/Repositories/ApplianceRepository.swift:34-37 | inserting into a listing ordered newest first keeps it ordered |
| Repository.SortNewestFirst | applianceIdentifier/Data/Repositories/ApplianceRepository.swift:34-37 | the sort's result is ordered by timestamp, newest first, and is a permutation of its input |
| Repository.Listing | applianceIdentifier/Data/Repositories/ApplianceRepository.swift:32-39 | the listing holds one snapshot per stored record and nothing else, newest first |
| Repository.ListedAreStored | applianceIdentifier/Data/Repositories/ApplianceRepository.swift:37-38 | every listed entry is the snapshot of a stored record |
| Repository.ListingAfterSave | applianceIdentifier/Data/Repositories/ApplianceRepository.swift:52-54 | after a save, the listing is the old one with the new snapshot inserted at its place in time: one entry more, including that snapshot |
| Repository.NewestSaveListedFirst | applianceIdentifier/Data/Repositories/ApplianceRepository.swift:34-54 | a record at least as new as every stored one is listed first, ahead of the unchanged old listing |
| Repository.ListingOfOne | applianceIdentifierTests/ApplianceIdentifierTests.swift:133-137 | a single stored record is listed on its own |
| Repository.ListingOfTwo | applianceIdentifierTests/ApplianceIdentifierTests.swift:133-137 | two records stored in time order are listed in reverse order |
| Repository.ListingOfThree | applianceIdentifierTests/ApplianceIdentifierTests.swift:133-137 | three records stored in time order, ties allowed, are listed in reverse order |
| Repository.AppendKeepsOrder | applianceIdentifier/Data/Repositories/ApplianceRepository.swift:44-52 | appending a record whose handle and UUID are newer than all stored ones keeps handles and UUIDs unique and increasing |
| Repository.Find | applianceIdentifier/Data/Repositories/ApplianceRepository.swift:59 | resolving a handle finds a record with that handle, and finds none exactly when no record has it |
| Repository.WithoutMembers | applianceIdentifier/Data/Repositories/ApplianceRepository.swift:64 | removal keeps exactly the records with other handles |
| Repository.WithoutRemovesOne | applianceIdentifier/Data/Repositories/ApplianceRepository.swift:59-64 | with unique handles, removing a stored handle removes exactly that record and keeps the others in order |
| Repository.WithoutKeepsOrder | applianceIdentifier/Data/Repositories/ApplianceRepository.swift:64 | removal keeps handles and UUIDs unique and increasing |
| Repository.ListingAfterDelete | applianceIdentifier/Data/Repositories/ApplianceRepository.swift:58-66 | after a removal, the listing is the old listing without that handle's snapshot, and every other entry keeps its place |
| Repository.RemoveAt | applianceIdentifier/Data/Repositories/ApplianceRepository.swift:58-66 | removing the found position yields the store without that handle: one record shorter, still ordered, within the counters, and listed as the old listing minus that snapshot |
| Repository.ApplianceStore.constructor | applianceIdentifier/Data/Repositories/ApplianceRepository.swift:29-30 | a new store holds no records and satisfies its invariant |
| Repository.ApplianceStore.Appliances | applianceIdentifier/Data/Repositories/ApplianceRepository.swift:32-40 | a failed fetch is reported as a storage failure; otherwise the result is every stored record's snapshot, ordered newest first |
| Repository.ApplianceStore.SaveAppliance | applianceIdentifier/Data/Repositories/ApplianceRepository.swift:43-55 | a failed commit is reported as a storage failure and the store is unchanged. Otherwise one record is appended, built from the draft's fields with a UUID and a handle newer than every stored one, and its snapshot is returned. Handles and UUIDs stay unique |
| Repository.ApplianceStore.DeleteAppliance | applianceIdentifier/Data/Repositories/ApplianceRepository.swift:58-66 | the call fails with not-found exactly when the handle names no record, and then changes nothing; a failed commit is reported as a storage failure and changes nothing. Otherwise exactly that record goes, the others remain in order, the handle is no longer stored, and the listing loses exactly that snapshot |
| Repository.SaveThreeListNewestFirst | applianceIdentifierTests/ApplianceIdentifierTests.swift:114-137 | three drafts saved in time order are listed newest first, each as the snapshot its save returned |
| Repository.DeleteTwice | applianceIdentifier/Data/Repositories/ApplianceRepository.swift:58-66 | deleting a saved record succeeds once and then fails with not-found |
| CameraViewModels.CameraViewModel.constructor | applianceIdentifier/Presentation/ViewModels/CameraViewModel.swift:20-26 | not processing, with no error and no result |
| CameraViewModels.CameraViewModel.ClassifyAndSave | applianceIdentifier/Presentation/ViewModels/CameraViewModel.swift:39-53 | afterwards processing is over and exactly one of result and error is set. A classification failure is shown, and no save is attempted, so the store is not touched. A save failure is shown and the store is unchanged. Otherwise the shown result is the saved snapshot of the draft, appended to the store |
| CameraViewModels.CameraViewModel.Reset | applianceIdentifier/Presentation/ViewModels/CameraViewModel.swift:56-59 | clears the result and the error and leaves the processing flag alone |
| ApplianceListViewModels.ApplianceListViewModel.constructor | applianceIdentifier/Presentation/ViewModels/ApplianceListViewModel.swift:19-25 | an empty list, not loading, no error |
| ApplianceListViewModels.ApplianceListViewModel.LoadAppliances | applianceIdentifier/Presentation/ViewModels/ApplianceListViewModel.swift:37-48 | a successful load shows the store's listing and no error; a failed load keeps the list and shows the error; loading is over afterwards |
| ApplianceListViewModels.ApplianceListViewModel.DeleteAppliance | applianceIdentifier/Presentation/ViewModels/ApplianceListViewModel.swift:52-59 | the snapshot's own handle is deleted. After a successful delete the list is reloaded: on a good fetch it is the old listing without that record. A failed delete keeps the list and the store, shows the error, and does not reload |

## Left out

- The Vision classifier, its model loading, and the continuation bridge with its lock-guarded flag are framework calls. The classifier's outcome is a parameter, shaped as `ClassificationResult` / `MLModelError`. Errors thrown by Vision itself, which the repository forwards unchanged, are not modelled: the classifier's error is always an `MLModelError`.
- JPEG encoding (`convertToJPEGData`) calls ImageIO. Its result is an opaque optional byte sequence, passed in.
- SwiftData and the model actor are replaced by an in-memory sequence of records. This covers the model context, `PersistentIdentifier` resolution, the durability of `save()`, cross-actor isolation and `Sendable`. Whether `save()` and `fetch` succeed is a boolean parameter; their thrown errors are all reported as one storage failure, distinct from the handle check's not-found.
- A failed `save()` is modelled as leaving the store as it was. SwiftData keeps the inserted or deleted object pending in the context, and that state is not modelled.
- `Date()` and `UUID()` are outside the model. The time is a parameter. UUIDs and storage handles come from counters, so each is fresh by construction.
- Swift `Double` and `Float` are modelled as exact `real`s. Rounding, and the tests' 0.01 tolerance, are not modelled. The conversion of `Float` confidence to `Double` is the identity.
- `lowercased()` is modelled for ASCII letters only. Unicode case mapping is not modelled.
- Strings are sequences of Unicode scalars. Swift compares and searches `String`s by grapheme cluster under canonical equivalence, which is not modelled: `"fan"` followed by a combining accent is related to the key `"fan"` in the model but not in Swift. For ASCII labels the two agree.
- A Swift dictionary has no defined iteration order. `SubstringMatch` scans the table in declaration order, so a name related to several keys (`"washer dryer"`) gets the first one in that order. `NoDataIffUnrelated` and the second ensures of `FuzzyAnswerIsRelated` are the order-free statements: they say only "some related key". The first ensures of `FuzzyAnswerIsRelated` equates the answer with the declaration-order scan.
- In the model, the empty name is contained in every string. So an empty name matches the first key in the scan. Which `contains` overload Swift picks for an empty string, and so what it answers, is not modelled.
- The listing's sort breaks timestamp ties by putting the later insertion first. SwiftData leaves the order of equal timestamps unspecified.
- `GetAppliancesUseCase`, `SaveApplianceUseCase` and `DeleteApplianceUseCase` pass their calls straight to the repository, so the view models call the store directly.
- An error message is modelled as its context sentence plus the error value. Its rendering through `localizedDescription` is not modelled.
- The view models' `isProcessing` / `isLoading` are observable as true while a call is in progress. The model states only their values before and after a method.
- Repository.ApplianceStore.SaveAppliance does not state the new listing in its own contract. `ListingAfterSave` states it from the appended record, which is in the contract.
- Dependency wiring, the SwiftUI views, and the app entry point are not part of this model. The test-only fallback types in the test file are not modelled either.
