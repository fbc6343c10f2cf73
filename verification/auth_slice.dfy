/** The client's authentication state (client/src/features/auth/authSlice.js):
    the logged-in user record (a JSON object holding at least the token) and
    the request flags. Writes to and reads from local storage are left out;
    the initial user is what local storage held when the page loaded. */
module AuthSlice {
  import opened Common

  datatype AuthView = AuthView(
    user: Option<JsonObject>, isError: bool, isSuccess: bool, isLoading: bool, message: string)

  /** `{...user, ...payload}`: the payload's keys win, every other key of the
      user keeps its value, and no other key appears. */
  function Merge(user: JsonObject, payload: JsonObject): (r: JsonObject)
    ensures r.Keys == user.Keys + payload.Keys
    ensures forall k :: k in payload ==> r[k] == payload[k]
    ensures forall k :: k in user && k !in payload ==> r[k] == user[k]
  {
    user + payload
  }

  /** Merging the same payload again changes nothing more. */
  lemma MergeIdempotent(user: JsonObject, payload: JsonObject)
    ensures Merge(Merge(user, payload), payload) == Merge(user, payload)
  {
  }

  class AuthState {
    var user: Option<JsonObject>
    var isError: bool
    var isSuccess: bool
    var isLoading: bool
    var message: string

    ghost function View(): AuthView
      reads this
    {
      AuthView(user, isError, isSuccess, isLoading, message)
    }

    /** The initial state: the user saved in local storage, if any. */
    constructor (stored: Option<JsonObject>)
      ensures View() == AuthView(stored, false, false, false, "")
    {
      user, isError, isSuccess, isLoading, message := stored, false, false, false, "";
    }

    /** reset: clears the flags and the message but keeps the user. */
    method Reset()
      modifies this
      ensures View() == AuthView(old(user), false, false, false, "")
    {
      isLoading, isSuccess, isError, message := false, false, false, "";
    }

    /** updateUser: nothing without a logged-in user, else merge the payload
        over the user. */
    method UpdateUser(payload: JsonObject)
      modifies this
      ensures old(user).None? ==> View() == old(View())
      ensures old(user).Some? ==> View() == old(View()).(user := Some(Merge(old(user).value, payload)))
    {
      if user.None? {
        return;
      }
      user := Some(Merge(user.value, payload));
    }

    /** register.pending and login.pending. */
    method AuthPending()
      modifies this
      ensures View() == old(View()).(isLoading := true)
    {
      isLoading := true;
    }

    /** register.fulfilled and login.fulfilled: the reply becomes the user. */
    method AuthFulfilled(payload: JsonObject)
      modifies this
      ensures View() == old(View()).(isLoading := false, isSuccess := true, user := Some(payload))
    {
      isLoading := false;
      isSuccess := true;
      user := Some(payload);
    }

    /** register.rejected and login.rejected: the user is logged out. */
    method AuthRejected(payload: string)
      modifies this
      ensures View() == old(View()).(isLoading := false, isError := true, message := payload, user := None)
    {
      isLoading := false;
      isError := true;
      message := payload;
      user := None;
    }

    /** logout.fulfilled. */
    method LogoutFulfilled()
      modifies this
      ensures View() == old(View()).(user := None)
    {
      user := None;
    }
  }
}
