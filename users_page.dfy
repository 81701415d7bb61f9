/**
 * The user management page (src/app/dashboard/users/page.tsx): the guards
 * on deleting a user, the delete confirmation, the form dialog and the
 * admin gate. Each call of `fetchUsers` is counted rather than performed.
 */
module UsersPage {
  import opened Wrappers
  import opened Types
  import Auth

  /** No one may delete the main admin account. */
  const MainAdminId: int := 1

  const SelfDeleteAlert: string := "You cannot delete your own account."
  const MainAdminAlert: string := "The main admin account (ID 1) cannot be deleted."
  const DeletedAlert: string := "User deleted successfully"
  const DeleteFailedAlert: string := "Failed to delete user."

  /** Why `handleDeleteClick` refuses, if it does: one's own account first, then id 1. */
  function DeleteRefusal(user: User, loggedIn: Option<Auth.StoredUserProfile>): (refusal: Option<string>)
    ensures refusal == None <==> user.id != MainAdminId && !(loggedIn.Some? && loggedIn.value.id == user.id)
    ensures loggedIn.Some? && loggedIn.value.id == user.id ==> refusal == Some(SelfDeleteAlert)
    ensures user.id == MainAdminId && !(loggedIn.Some? && loggedIn.value.id == user.id) ==> refusal == Some(MainAdminAlert)
  {
    if loggedIn.Some? && user.id == loggedIn.value.id then Some(SelfDeleteAlert)
    else if user.id == MainAdminId then Some(MainAdminAlert)
    else None
  }

  /** What the page renders. */
  datatype PageView = Loading | AccessDenied | Table

  /** `loading` is checked first, then the role of the logged-in user. */
  function ViewOf(loading: bool, loggedIn: Option<Auth.StoredUserProfile>): (v: PageView)
    ensures v == Table <==> !loading && loggedIn.Some? && loggedIn.value.role == RoleName(ADMIN)
    ensures v == Loading <==> loading
  {
    if loading then Loading
    else if loggedIn.None? || loggedIn.value.role != RoleName(ADMIN) then AccessDenied
    else Table
  }

  /** `` `/users/${id}` `` for the DELETE request. */
  function DeletePath(id: int): string {
    ItemPath("/users", id)
  }

  class UsersPageState {
    var isFormOpen: bool
    var editingUser: Option<User>
    var isDeleteAlertOpen: bool
    var userToDelete: Option<User>
    var fetches: nat

    /** The page's invariant: the main admin is never the pending deletion. */
    predicate Valid()
      reads this
    {
      userToDelete.Some? ==> userToDelete.value.id != MainAdminId
    }

    constructor ()
      ensures Valid()
      ensures !isFormOpen && editingUser == None && !isDeleteAlertOpen && userToDelete == None && fetches == 0
    {
      isFormOpen := false;
      editingUser := None;
      isDeleteAlertOpen := false;
      userToDelete := None;
      fetches := 0;
    }

    /** `handleSuccess`: the form closes, nothing is being edited, and the list is fetched again. */
    method HandleSuccess()
      requires Valid()
      modifies this
      ensures Valid()
      ensures !isFormOpen && editingUser == None && fetches == old(fetches) + 1
      ensures isDeleteAlertOpen == old(isDeleteAlertOpen) && userToDelete == old(userToDelete)
    {
      isFormOpen := false;
      editingUser := None;
      fetches := fetches + 1;
    }

    method HandleAddNewClick()
      requires Valid()
      modifies this
      ensures Valid()
      ensures isFormOpen && editingUser == None && fetches == old(fetches)
      ensures isDeleteAlertOpen == old(isDeleteAlertOpen) && userToDelete == old(userToDelete)
    {
      editingUser := None;
      isFormOpen := true;
    }

    method HandleEditClick(user: User)
      requires Valid()
      modifies this
      ensures Valid()
      ensures isFormOpen && editingUser == Some(user) && fetches == old(fetches)
      ensures isDeleteAlertOpen == old(isDeleteAlertOpen) && userToDelete == old(userToDelete)
    {
      editingUser := Some(user);
      isFormOpen := true;
    }

    /** `handleDeleteClick`: a refused user is not marked; any other becomes the pending deletion. */
    method HandleDeleteClick(user: User, loggedIn: Option<Auth.StoredUserProfile>) returns (alertText: Option<string>)
      requires Valid()
      modifies this
      ensures Valid()
      ensures alertText == DeleteRefusal(user, loggedIn)
      ensures alertText.Some? ==> userToDelete == old(userToDelete) && isDeleteAlertOpen == old(isDeleteAlertOpen)
      ensures alertText.None? ==> userToDelete == Some(user) && isDeleteAlertOpen
      ensures isFormOpen == old(isFormOpen) && editingUser == old(editingUser) && fetches == old(fetches)
    {
      if loggedIn.Some? && user.id == loggedIn.value.id {
        return Some(SelfDeleteAlert);
      }
      if user.id == MainAdminId {
        return Some(MainAdminAlert);
      }
      userToDelete := Some(user);
      isDeleteAlertOpen := true;
      alertText := None;
    }

    /**
     * `confirmDelete`: nothing happens without a pending user; otherwise the
     * DELETE is sent, success refetches, and either way the dialog closes and
     * the pending user is cleared.
     */
    method ConfirmDelete(deleteOk: bool) returns (deleted: Option<string>, alertText: Option<string>)
      requires Valid()
      modifies this
      ensures Valid()
      ensures old(userToDelete) == None ==>
        deleted == None && alertText == None && isDeleteAlertOpen == old(isDeleteAlertOpen)
        && userToDelete == None && fetches == old(fetches)
      ensures old(userToDelete).Some? ==>
        && deleted == Some(DeletePath(old(userToDelete).value.id))
        && old(userToDelete).value.id != MainAdminId
        && !isDeleteAlertOpen && userToDelete == None
        && (deleteOk ==> alertText == Some(DeletedAlert) && fetches == old(fetches) + 1)
        && (!deleteOk ==> alertText == Some(DeleteFailedAlert) && fetches == old(fetches))
      ensures isFormOpen == old(isFormOpen) && editingUser == old(editingUser)
    {
      if userToDelete.None? {
        return None, None;
      }
      deleted := Some(DeletePath(userToDelete.value.id));
      if deleteOk {
        alertText := Some(DeletedAlert);
        fetches := fetches + 1;
      } else {
        alertText := Some(DeleteFailedAlert);
      }
      isDeleteAlertOpen := false;
      userToDelete := None;
    }
  }

}
