/**
 * The store management page (src/app/dashboard/stores/page.tsx): the admin
 * gate, loading the list, the form dialog, and deleting a store. The GET
 * and DELETE requests are inputs: a fetch result, and the outcome of the
 * DELETE.
 */
module StoresPage {
  import opened Wrappers
  import opened Types
  import Text

  /** The main store can never be deleted. */
  const MainStoreId: int := 1

  const LoadFailedError: string := "Could not load stores. Please ensure the backend is running."
  const AccessDeniedError: string := "Access Denied: Only Admins can manage stores."
  const MainStoreToast: string := "The main store (ID 1) cannot be deleted."
  const DeletedToast: string := "Store deleted successfully"
  const LinkedDefault: string := "Cannot delete store: It might be linked to other records."
  const DeleteFailedToast: string := "Failed to delete store. Please check console."

  datatype FetchResult = Fetched(data: seq<Store>) | FetchFailed

  datatype DeleteResponse = Deleted | DeleteFailed(status: Option<int>, message: ServerMessage)

  /**
   * The error toast for a failed DELETE: on 409 or 400 the server's message
   * (a list renders as its parts side by side), or the default when it has
   * none; any other failure gets the generic text.
   */
  function DeleteFailureToast(status: Option<int>, message: ServerMessage): (toast: string)
    ensures status != Some(409) && status != Some(400) ==> toast == DeleteFailedToast
    ensures (status == Some(409) || status == Some(400)) && message.TextMessage? && message.text != "" ==> toast == message.text
    ensures (status == Some(409) || status == Some(400)) && (message.NoMessage? || message == TextMessage("")) ==> toast == LinkedDefault
  {
    if status == Some(409) || status == Some(400) then
      match message
      case ListMessage(parts) => Text.Join(parts, "")
      case TextMessage(t) => if t != "" then t else LinkedDefault
      case NoMessage => LinkedDefault
    else DeleteFailedToast
  }

  datatype PageView = ErrorView(text: string) | Loading | AccessDenied | Table

  /** The render order: a fetch error, then the first load, then the role, then the table. */
  function ViewOf(fetchError: Option<string>, loading: bool, stores: seq<Store>, role: Option<string>): (v: PageView)
    ensures fetchError.Some? && fetchError.value != "" ==> v == ErrorView(fetchError.value)
    ensures v.ErrorView? <==> fetchError.Some? && fetchError.value != ""
    ensures v == Loading <==> (fetchError.None? || fetchError.value == "") && loading && stores == []
    ensures v == AccessDenied <==> (fetchError.None? || fetchError.value == "") && !loading && role != Some(RoleName(ADMIN))
    ensures v == Table <==>
      (fetchError.None? || fetchError.value == "") && !(loading && stores == []) && (role == Some(RoleName(ADMIN)) || loading)
  {
    if fetchError.Some? && fetchError.value != "" then ErrorView(fetchError.value)
    else if loading && stores == [] then Loading
    else if role != Some(RoleName(ADMIN)) && !loading then AccessDenied
    else Table
  }

  /** `` `/stores/${id}` `` for the DELETE request. */
  function DeletePath(id: int): string {
    ItemPath("/stores", id)
  }

  class StoresPageState {
    var stores: seq<Store>
    var loading: bool
    var fetchError: Option<string>
    var isFormOpen: bool
    var editingStore: Option<Store>
    var isDeleteAlertOpen: bool
    var storeToDelete: Option<Store>

    /** The page's invariant: the main store is never the pending deletion. */
    predicate Valid()
      reads this
    {
      storeToDelete.Some? ==> storeToDelete.value.id != MainStoreId
    }

    constructor ()
      ensures Valid()
      ensures stores == [] && loading && fetchError == None && !isFormOpen && editingStore == None
      ensures !isDeleteAlertOpen && storeToDelete == None
    {
      stores := [];
      loading := true;
      fetchError := None;
      isFormOpen := false;
      editingStore := None;
      isDeleteAlertOpen := false;
      storeToDelete := None;
    }

    /** `fetchStores`: a success replaces the list, a failure empties it and records the load error. */
    method FetchStores(result: FetchResult)
      requires Valid()
      modifies this
      ensures Valid()
      ensures !loading
      ensures result.Fetched? ==> stores == result.data && fetchError == None
      ensures result.FetchFailed? ==> stores == [] && fetchError == Some(LoadFailedError)
      ensures isFormOpen == old(isFormOpen) && editingStore == old(editingStore)
      ensures isDeleteAlertOpen == old(isDeleteAlertOpen) && storeToDelete == old(storeToDelete)
    {
      loading := true;
      fetchError := None;
      if result.Fetched? {
        stores := result.data;
      } else {
        fetchError := Some(LoadFailedError);
        stores := [];
      }
      loading := false;
    }

    /** The effect on the role: only ADMIN fetches; anyone else gets the access-denied error and no request. */
    method OnRoleChanged(role: Option<string>, result: FetchResult) returns (fetched: bool)
      requires Valid()
      modifies this
      ensures Valid()
      ensures fetched <==> role == Some(RoleName(ADMIN))
      ensures !loading
      ensures fetched && result.Fetched? ==> stores == result.data && fetchError == None
      ensures fetched && result.FetchFailed? ==> stores == [] && fetchError == Some(LoadFailedError)
      ensures !fetched ==> stores == old(stores) && fetchError == Some(AccessDeniedError)
      ensures isFormOpen == old(isFormOpen) && editingStore == old(editingStore)
      ensures isDeleteAlertOpen == old(isDeleteAlertOpen) && storeToDelete == old(storeToDelete)
    {
      if role == Some(RoleName(ADMIN)) {
        FetchStores(result);
        fetched := true;
      } else {
        loading := false;
        fetchError := Some(AccessDeniedError);
        fetched := false;
      }
    }

    /** `handleSuccess`: the form closes, nothing is being edited, and the list is reloaded. */
    method HandleSuccess(result: FetchResult)
      requires Valid()
      modifies this
      ensures Valid()
      ensures !isFormOpen && editingStore == None && !loading
      ensures result.Fetched? ==> stores == result.data && fetchError == None
      ensures result.FetchFailed? ==> stores == [] && fetchError == Some(LoadFailedError)
      ensures isDeleteAlertOpen == old(isDeleteAlertOpen) && storeToDelete == old(storeToDelete)
    {
      isFormOpen := false;
      editingStore := None;
      FetchStores(result);
    }

    method HandleAddNewClick()
      requires Valid()
      modifies this
      ensures Valid()
      ensures isFormOpen && editingStore == None
      ensures stores == old(stores) && loading == old(loading) && fetchError == old(fetchError)
      ensures isDeleteAlertOpen == old(isDeleteAlertOpen) && storeToDelete == old(storeToDelete)
    {
      editingStore := None;
      isFormOpen := true;
    }

    method HandleEditClick(store: Store)
      requires Valid()
      modifies this
      ensures Valid()
      ensures isFormOpen && editingStore == Some(store)
      ensures stores == old(stores) && loading == old(loading) && fetchError == old(fetchError)
      ensures isDeleteAlertOpen == old(isDeleteAlertOpen) && storeToDelete == old(storeToDelete)
    {
      editingStore := Some(store);
      isFormOpen := true;
    }

    /** `handleDeleteClick`: store 1 is refused and not marked; any other becomes the pending deletion. */
    method HandleDeleteClick(store: Store) returns (toast: Option<string>)
      requires Valid()
      modifies this
      ensures Valid()
      ensures store.id == MainStoreId ==>
        toast == Some(MainStoreToast) && storeToDelete == old(storeToDelete) && isDeleteAlertOpen == old(isDeleteAlertOpen)
      ensures store.id != MainStoreId ==> toast == None && storeToDelete == Some(store) && isDeleteAlertOpen
      ensures stores == old(stores) && loading == old(loading) && fetchError == old(fetchError)
      ensures isFormOpen == old(isFormOpen) && editingStore == old(editingStore)
    {
      if store.id == MainStoreId {
        return Some(MainStoreToast);
      }
      storeToDelete := Some(store);
      isDeleteAlertOpen := true;
      toast := None;
    }

    /**
     * `confirmDelete`: nothing without a pending store; otherwise the DELETE
     * is sent, a success reloads the list, a failure shows its toast, and in
     * every case the dialog closes and the pending store is cleared.
     */
    method ConfirmDelete(response: DeleteResponse, refetch: FetchResult)
      returns (deleted: Option<string>, toast: Option<string>)
      requires Valid()
      modifies this
      ensures Valid()
      ensures old(storeToDelete) == None ==>
        deleted == None && toast == None && storeToDelete == None && isDeleteAlertOpen == old(isDeleteAlertOpen)
        && stores == old(stores) && loading == old(loading) && fetchError == old(fetchError)
      ensures old(storeToDelete).Some? ==>
        && deleted == Some(DeletePath(old(storeToDelete).value.id))
        && old(storeToDelete).value.id != MainStoreId
        && !isDeleteAlertOpen && storeToDelete == None
      ensures old(storeToDelete).Some? && response.Deleted? ==>
        && toast == Some(DeletedToast) && !loading
        && (refetch.Fetched? ==> stores == refetch.data && fetchError == None)
        && (refetch.FetchFailed? ==> stores == [] && fetchError == Some(LoadFailedError))
      ensures old(storeToDelete).Some? && response.DeleteFailed? ==>
        && toast == Some(DeleteFailureToast(response.status, response.message))
        && stores == old(stores) && loading == old(loading) && fetchError == old(fetchError)
      ensures isFormOpen == old(isFormOpen) && editingStore == old(editingStore)
    {
      if storeToDelete.None? {
        return None, None;
      }
      deleted := Some(DeletePath(storeToDelete.value.id));
      if response.Deleted? {
        toast := Some(DeletedToast);
        FetchStores(refetch);
      } else {
        toast := Some(DeleteFailureToast(response.status, response.message));
      }
      isDeleteAlertOpen := false;
      storeToDelete := None;
    }
  }


  /** A non-admin whose access was denied sees the denial, never the table. */
  lemma NonAdminSeesDenial(stores: seq<Store>, role: Option<string>)
    requires role != Some(RoleName(ADMIN))
    ensures ViewOf(Some(AccessDeniedError), false, stores, role) == ErrorView(AccessDeniedError)
    ensures ViewOf(None, false, stores, role) == AccessDenied
  {
  }
}
