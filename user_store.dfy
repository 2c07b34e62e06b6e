/**
 * The organiser's user directory (src/stores/userStore.ts): the list of all
 * users, a loading flag and the last error text, with the role change that
 * replaces one entry by what the server answers.
 */
module UserStore {
  import opened Wrappers
  import opened Types

  class Store {
    var users: seq<User>
    var isLoading: bool
    var error: Option<string>

    constructor ()
      ensures users == [] && !isLoading && error == None
    {
      users, isLoading, error := [], false, None;
    }

    /**
     * `fetchAllUsers`: a 2xx answer whose `users` is an array replaces the
     * list and clears the error; a non-2xx answer, a body that is not an
     * array and a rejected request each record their own text and keep the
     * list. Loading always ends off.
     */
    method FetchAllUsers(response: Response<Option<seq<User>>>)
      modifies this
      ensures !isLoading
      ensures response.Ok? && response.body.Some? ==> users == response.body.value && error == None
      ensures !(response.Ok? && response.body.Some?) ==> users == old(users)
      ensures response == Ok(None) ==> error == Some("Invalid users data format")
      ensures response.HttpErr? ==> error == Some(HttpErrorText("fetch users", response.status, response.statusText))
      ensures response.NetErr? ==> error == Some(NetworkErrorText(response.thrown))
    {
      isLoading, error := true, None;
      match response
      case HttpErr(status, statusText, _) =>
        error, isLoading := Some(HttpErrorText("fetch users", status, statusText)), false;
      case NetErr(thrown) =>
        error, isLoading := Some(NetworkErrorText(thrown)), false;
      case Ok(body) =>
        if body.None? {
          error, isLoading := Some("Invalid users data format"), false;
        } else {
          users, isLoading := body.value, false;
        }
    }

    /**
     * `updateUserRole`: on a 2xx answer every entry with `userId` becomes the
     * returned record, which is also the result, and the error is left as it
     * was; on a non-2xx answer or a rejected request the list is kept, the
     * error is recorded and nothing is returned. The loading flag is never
     * touched. The role asked for only travels in the request, so it does
     * not appear in the contract.
     */
    method UpdateUserRole(userId: string, newRole: Role, response: Response<User>) returns (r: Option<User>)
      modifies this
      ensures response.Ok? ==> r == Some(response.body) && users == ReplaceUser(old(users), userId, response.body) && error == old(error)
      ensures !response.Ok? ==> r == None && users == old(users)
      ensures response.HttpErr? ==> error == Some(HttpErrorText("update user role", response.status, response.statusText))
      ensures response.NetErr? ==> error == Some(NetworkErrorText(response.thrown))
      ensures isLoading == old(isLoading)
    {
      match response
      case HttpErr(status, statusText, _) =>
        error := Some(HttpErrorText("update user role", status, statusText));
        r := None;
      case NetErr(thrown) =>
        error := Some(NetworkErrorText(thrown));
        r := None;
      case Ok(updated) =>
        users := ReplaceUser(users, userId, updated);
        r := Some(updated);
    }

    /** `clearUsers`: no users, not loading, no error. */
    method ClearUsers()
      modifies this
      ensures users == [] && !isLoading && error == None
    {
      users, isLoading, error := [], false, None;
    }
  }

  /**
   * Changing the role of a user the directory does not list leaves the
   * directory as it was, while a listed user is replaced and every other
   * entry stays where it was.
   */
  method ChangeRoleOf(directory: seq<User>, userId: string, newRole: Role, answer: User)
    returns (before: seq<User>, after: seq<User>)
    ensures before == directory && |after| == |before|
    ensures (forall u :: u in directory ==> u.userId != userId) ==> after == before
    ensures forall i :: 0 <= i < |before| ==> after[i] == (if before[i].userId == userId then answer else before[i])
  {
    var store := new Store();
    store.FetchAllUsers(Ok(Some(directory)));
    before := store.users;
    var r := store.UpdateUserRole(userId, newRole, Ok(answer));
    after := store.users;
    if forall u :: u in directory ==> u.userId != userId {
      ReplaceUserAbsent(directory, userId, answer);
    }
  }
}
