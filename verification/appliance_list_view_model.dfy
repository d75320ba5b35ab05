/** `ApplianceListViewModel`: loads the saved appliances and deletes them. */
module ApplianceListViewModels {
  import opened Wrappers
  import opened ApplianceDto
  import opened Repository
  import opened ViewModelErrors

  class ApplianceListViewModel {
    /** The appliances on screen. */
    var appliances: seq<ApplianceDTO>
    /** A load is in progress. */
    var isLoading: bool
    /** The error shown to the user, if any. */
    var errorMessage: Option<ErrorMessage>

    constructor ()
      ensures appliances == [] && !isLoading && errorMessage == None
    {
      appliances := [];
      isLoading := false;
      errorMessage := None;
    }

    /** `loadAppliances()`; `fetchOk` says whether the store's fetch succeeds. On success
        the list is the store's listing and no error is shown; on failure the list
        is kept and the error is shown. Loading is over afterwards. */
    method LoadAppliances(store: ApplianceStore, fetchOk: bool)
      modifies this
      ensures !isLoading
      ensures fetchOk ==> appliances == Listing(store.models) && errorMessage == None
      ensures !fetchOk ==>
        appliances == old(appliances) &&
        errorMessage == Some(ErrorMessage(LoadFailed, StoreFailure(StorageFailure)))
    {
      isLoading := true;
      errorMessage := None;

      var fetched := store.Appliances(fetchOk);
      if fetched.Success? {
        appliances := fetched.value;
      } else {
        errorMessage := Some(ErrorMessage(LoadFailed, StoreFailure(fetched.error)));
      }

      isLoading := false;
    }

    /** `deleteAppliance(_:)`: asks the store to delete the record with the
        snapshot's handle (`commitOk` says whether the store's save succeeds) and, on
        success, reloads (`fetchOk` says whether that fetch succeeds). A successful
        delete and reload shows the old listing without the deleted record. A
        failed delete shows the error, keeps the list and does not reload. */
    method DeleteAppliance(appliance: ApplianceDTO, store: ApplianceStore,
                           commitOk: bool, fetchOk: bool)
      requires store.Valid()
      modifies this, store
      ensures store.Valid()
      ensures !Stored(old(store.models), appliance.persistentID) ==>
        store.models == old(store.models) && appliances == old(appliances) &&
        isLoading == old(isLoading) &&
        errorMessage == Some(ErrorMessage(DeleteFailed, StoreFailure(NotFound)))
      ensures Stored(old(store.models), appliance.persistentID) && !commitOk ==>
        store.models == old(store.models) && appliances == old(appliances) &&
        isLoading == old(isLoading) &&
        errorMessage == Some(ErrorMessage(DeleteFailed, StoreFailure(StorageFailure)))
      ensures Stored(old(store.models), appliance.persistentID) && commitOk ==>
        store.models == Without(old(store.models), appliance.persistentID) && !isLoading
      ensures Stored(old(store.models), appliance.persistentID) && commitOk && fetchOk ==>
        appliances == WithoutSnapshot(Listing(old(store.models)), appliance.persistentID) &&
        errorMessage == None
      ensures Stored(old(store.models), appliance.persistentID) && commitOk && !fetchOk ==>
        appliances == old(appliances) &&
        errorMessage == Some(ErrorMessage(LoadFailed, StoreFailure(StorageFailure)))
    {
      var deleted := store.DeleteAppliance(appliance.persistentID, commitOk);
      if deleted.Pass? {
        LoadAppliances(store, fetchOk);
      } else {
        errorMessage := Some(ErrorMessage(DeleteFailed, StoreFailure(deleted.error)));
      }
    }
  }
}
